/** The validator's structure check of a collector configuration, on the parsed tree. */
module Validator {
  import opened Basics

  /** One pipeline under service.pipelines; an absent section is `None`. */
  datatype PipelineNode =
    | NotAnObject
    | Sections(receivers: Option<seq<string>>, processors: Option<seq<string>>, exporters: Option<seq<string>>)

  /** `pipelines` is absent when service.pipelines is missing or not an object. */
  datatype Service = Service(pipelines: Option<map<string, PipelineNode>>, extensions: seq<string>)

  datatype Config = Config(receivers: set<string>, processors: set<string>, exporters: set<string>,
                           extensions: set<string>, service: Option<Service>)

  datatype Message =
    | MissingService | MissingPipelines | InvalidPipeline(name: string)
    | MissingSection(name: string, section: string)
    | Undefined(name: string, section: string, index: nat, id: string)
    | UndefinedExtension(id: string)

  function Ids(section: Option<seq<string>>): seq<string> {
    if section.Some? then section.value else []
  }

  predicate AllDefined(ids: seq<string>, defined: set<string>) {
    forall i | 0 <= i < |ids| :: ids[i] in defined
  }

  /** What the check asks of one pipeline. */
  predicate PipelineOk(c: Config, node: PipelineNode) {
    && node.Sections? && node.receivers.Some? && node.exporters.Some?
    && AllDefined(Ids(node.receivers), c.receivers)
    && AllDefined(Ids(node.processors), c.processors)
    && AllDefined(Ids(node.exporters), c.exporters)
  }

  predicate StructureOk(c: Config) {
    && c.service.Some?
    && c.service.value.pipelines.Some? && c.service.value.pipelines.value != map[]
    && (forall name | name in c.service.value.pipelines.value :: PipelineOk(c, c.service.value.pipelines.value[name]))
    && AllDefined(c.service.value.extensions, c.extensions)
  }

  /** A message for every reference before `n` that is not defined, each once and in order. */
  predicate ReportsMissing(messages: seq<Message>, name: string, section: string, ids: seq<string>,
                           defined: set<string>, n: nat)
    requires n <= |ids|
  {
    && (forall j | 0 <= j < |messages| ::
          && messages[j].Undefined? && messages[j].index < n && ids[messages[j].index] !in defined
          && messages[j] == Undefined(name, section, messages[j].index, ids[messages[j].index]))
    && (forall i | 0 <= i < n && ids[i] !in defined :: Undefined(name, section, i, ids[i]) in messages)
    && (forall j, k | 0 <= j < k < |messages| :: messages[j].index < messages[k].index)
  }

  /** The references of one section of a pipeline. */
  function RefsOf(node: PipelineNode, section: string): seq<string>
    requires node.Sections?
  {
    match section
    case "receivers" => Ids(node.receivers)
    case "processors" => Ids(node.processors)
    case "exporters" => Ids(node.exporters)
    case _ => []
  }

  function DefinedIn(c: Config, section: string): set<string> {
    match section
    case "receivers" => c.receivers
    case "processors" => c.processors
    case "exporters" => c.exporters
    case _ => {}
  }

  /** The message names a fault that the pipeline has. */
  predicate PipelineFault(c: Config, name: string, node: PipelineNode, m: Message) {
    match m
    case InvalidPipeline(n) => n == name && node.NotAnObject?
    case MissingSection(n, section) =>
      && n == name && node.Sections?
      && ((section == "receivers" && node.receivers.None?) || (section == "exporters" && node.exporters.None?))
    case Undefined(n, section, index, id) =>
      && n == name && node.Sections? && index < |RefsOf(node, section)|
      && RefsOf(node, section)[index] == id && id !in DefinedIn(c, section)
    case _ => false
  }

  /** The message names a fault that the configuration has. */
  ghost predicate IsFault(c: Config, m: Message) {
    if c.service.None? then m == MissingService
    else if c.service.value.pipelines.None? || c.service.value.pipelines.value == map[] then m == MissingPipelines
    else
      var pipelines := c.service.value.pipelines.value;
      || (exists name | name in pipelines :: PipelineFault(c, name, pipelines[name], m))
      || (m.UndefinedExtension? && m.id in c.service.value.extensions && m.id !in c.extensions)
  }

  /** The loop over the references of one section. */
  method CheckRefs(name: string, section: string, ids: seq<string>, defined: set<string>)
    returns (messages: seq<Message>)
    ensures ReportsMissing(messages, name, section, ids, defined, |ids|)
    ensures messages == [] <==> AllDefined(ids, defined)
  {
    messages := [];
    for i := 0 to |ids|
      invariant ReportsMissing(messages, name, section, ids, defined, i)
    {
      if ids[i] !in defined {
        messages := messages + [Undefined(name, section, i, ids[i])];
      }
    }
    if messages != [] {
      assert ids[messages[0].index] !in defined;
    }
  }

  method CheckPipeline(c: Config, name: string, node: PipelineNode) returns (messages: seq<Message>)
    ensures messages == [] <==> PipelineOk(c, node)
    ensures forall m :: m in messages <==> PipelineFault(c, name, node, m)
  {
    if node.NotAnObject? {
      return [InvalidPipeline(name)];
    }
    messages := [];
    if node.receivers.None? {
      messages := messages + [MissingSection(name, "receivers")];
    }
    if node.exporters.None? {
      messages := messages + [MissingSection(name, "exporters")];
    }
    ghost var sections := messages;
    var r := CheckRefs(name, "receivers", Ids(node.receivers), c.receivers);
    var p := CheckRefs(name, "processors", Ids(node.processors), c.processors);
    var e := CheckRefs(name, "exporters", Ids(node.exporters), c.exporters);
    messages := messages + r + p + e;
    RefFaults(c, name, node, "receivers", r);
    RefFaults(c, name, node, "processors", p);
    RefFaults(c, name, node, "exporters", e);
    forall m ensures m in messages <==> PipelineFault(c, name, node, m) {
      assert m in messages <==> m in sections || m in r || m in p || m in e;
      if PipelineFault(c, name, node, m) && m.Undefined? {
        OtherSections(c, name, node, m);
      }
    }
  }

  lemma RefFaults(c: Config, name: string, node: PipelineNode, section: string, messages: seq<Message>)
    requires node.Sections?
    requires ReportsMissing(messages, name, section, RefsOf(node, section), DefinedIn(c, section),
                            |RefsOf(node, section)|)
    ensures forall m :: m in messages <==> m.Undefined? && m.section == section && PipelineFault(c, name, node, m)
  {
  }

  /** Only the three sections have references. */
  lemma OtherSections(c: Config, name: string, node: PipelineNode, m: Message)
    requires PipelineFault(c, name, node, m) && m.Undefined?
    ensures m.section == "receivers" || m.section == "processors" || m.section == "exporters"
  {
  }

  /** validateCollectorStructure reports nothing exactly when the structure is right. */
  method ValidateStructure(c: Config) returns (messages: seq<Message>)
    ensures messages == [] <==> StructureOk(c)
    ensures forall m :: m in messages <==> IsFault(c, m)
  {
    if c.service.None? {
      return [MissingService];
    }
    var service := c.service.value;
    if service.pipelines.None? || service.pipelines.value == map[] {
      return [MissingPipelines];
    }
    messages := [];
    var pipelines := service.pipelines.value;
    var names := pipelines.Keys;
    while names != {}
      invariant names <= pipelines.Keys
      invariant messages == [] <==> forall name | name in pipelines && name !in names :: PipelineOk(c, pipelines[name])
      invariant forall m :: m in messages <==>
                  exists name | name in pipelines && name !in names :: PipelineFault(c, name, pipelines[name], m)
      decreases names
    {
      var name :| name in names;
      var found := CheckPipeline(c, name, pipelines[name]);
      messages := messages + found;
      names := names - {name};
    }
    for i := 0 to |service.extensions|
      invariant messages == [] <==>
                  (forall name | name in pipelines :: PipelineOk(c, pipelines[name]))
                  && AllDefined(service.extensions[..i], c.extensions)
      invariant forall m :: m in messages <==>
                  || (exists name | name in pipelines :: PipelineFault(c, name, pipelines[name], m))
                  || (m.UndefinedExtension? && m.id in service.extensions[..i] && m.id !in c.extensions)
    {
      assert service.extensions[..i + 1] == service.extensions[..i] + [service.extensions[i]];
      if service.extensions[i] !in c.extensions {
        messages := messages + [UndefinedExtension(service.extensions[i])];
      }
    }
    assert service.extensions[..|service.extensions|] == service.extensions;
  }
}
