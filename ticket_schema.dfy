/** The `saveSupportTicket` tool declaration and the typed view of its arguments. */
module TicketSchema {
  import opened SessionTypes

  /** The only tool name the remote model may invoke. */
  const SaveTicketName: string := "saveSupportTicket"

  /** The six field names of a support ticket, in declaration order. */
  const TicketFields: seq<string> := ["nombre", "correo", "municipalidad", "area", "modulo", "problema"]

  datatype ParamType = StringType

  datatype Parameter = Parameter(name: string, typ: ParamType, description: string)

  datatype FunctionDeclaration = FunctionDeclaration(
    name: string,
    description: string,
    properties: seq<Parameter>,
    required: seq<string>)

  /** The tool declaration sent with the session configuration. */
  const TicketDeclaration: FunctionDeclaration := FunctionDeclaration(
    SaveTicketName,
    "Guarda el ticket de soporte con la información recopilada del usuario.",
    [ Parameter("nombre", StringType, "Nombre del usuario"),
      Parameter("correo", StringType, "Correo electrónico del usuario"),
      Parameter("municipalidad", StringType, "Municipalidad del usuario"),
      Parameter("area", StringType, "Área del sistema (ej: Tránsito, Rentas)"),
      Parameter("modulo", StringType, "Módulo específico o equipamiento"),
      Parameter("problema", StringType, "Descripción detallada del problema") ],
    ["nombre", "correo", "municipalidad", "area", "modulo", "problema"])

  /** The names of the declared parameters, in order. */
  function ParameterNames(ps: seq<Parameter>): (names: seq<string>)
    ensures |names| == |ps|
    ensures forall i :: 0 <= i < |ps| ==> names[i] == ps[i].name
  {
    if ps == [] then [] else [ps[0].name] + ParameterNames(ps[1..])
  }

  /** Every declared field is present among the arguments. */
  predicate IsComplete(args: Args) {
    forall k :: k in TicketFields ==> k in args
  }

  /** The arguments a typed ticket corresponds to. */
  function ArgsOf(t: SupportTicket): (args: Args)
    ensures IsComplete(args)
    ensures args.Keys == set k | k in TicketFields
  {
    map["nombre" := t.nombre, "correo" := t.correo, "municipalidad" := t.municipalidad,
        "area" := t.area, "modulo" := t.modulo, "problema" := t.problema]
  }

  /** Reading raw arguments as a typed ticket: defined exactly when no declared field is missing;
      extra arguments are ignored. */
  function AsTicket(args: Args): (t: Option<SupportTicket>)
    ensures t.Some? <==> IsComplete(args)
    ensures t.Some? ==> forall k :: k in ArgsOf(t.value) ==> k in args && ArgsOf(t.value)[k] == args[k]
  {
    if IsComplete(args) then
      Some(SupportTicket(args["nombre"], args["correo"], args["municipalidad"],
                         args["area"], args["modulo"], args["problema"]))
    else None
  }

  /** Writing a ticket as arguments and reading it back gives the same ticket. */
  lemma TicketRoundTrip(t: SupportTicket)
    ensures AsTicket(ArgsOf(t)) == Some(t)
  {
  }

  /** Arguments that carry exactly the declared fields survive a round trip through the typed view. */
  lemma ArgsRoundTrip(args: Args)
    requires args.Keys == set k | k in TicketFields
    ensures AsTicket(args).Some?
    ensures ArgsOf(AsTicket(args).value) == args
  {
    var back := ArgsOf(AsTicket(args).value);
    assert back.Keys == args.Keys;
  }

  /** The declaration names exactly the ticket's six fields, all of type string, all required. */
  lemma DeclarationMatchesTicket()
    ensures TicketDeclaration.name == SaveTicketName
    ensures ParameterNames(TicketDeclaration.properties) == TicketFields
    ensures TicketDeclaration.required == TicketFields
    ensures forall p :: p in TicketDeclaration.properties ==> p.typ == StringType
    ensures forall i, j :: 0 <= i < j < |TicketFields| ==> TicketFields[i] != TicketFields[j]
  {
  }
}
