/** The four bot types and their fixed provisioning templates
    (`BOT_TEMPLATES`), and the lookup the deploy request uses. */
module Templates {
  import opened Common

  datatype BotType = ToolBuilder | Designer | Support | Manager

  /** A provisioning and runtime template (the compaction object is reduced
      to its one `mode` field). */
  datatype Template = Template(
    instanceType: string,
    model: string,
    heartbeat: string,
    memory: string,
    storage: string,
    compactionMode: string,
    cooldown: nat,
    capabilities: seq<string>)

  /** The key of a bot type in the template table. */
  function TypeName(t: BotType): string
  {
    match t
    case ToolBuilder => "tool-builder"
    case Designer => "designer"
    case Support => "support"
    case Manager => "manager"
  }

  const TypeNames: set<string> := {"tool-builder", "designer", "support", "manager"}

  const InstanceTypes: set<string> := {"t3.micro", "t3.small", "t3.medium", "t3.large", "t3.xlarge"}
  const Models: set<string> := {
    "anthropic/claude-3-5-haiku-latest",
    "anthropic/claude-sonnet-4-20250514",
    "anthropic/claude-opus-latest"
  }

  function TemplateOf(t: BotType): Template
  {
    match t
    case ToolBuilder =>
      Template("t3.medium", "anthropic/claude-sonnet-4-20250514", "30m", "4GB", "20GB", "safeguard", 60,
               ["automation", "deployment", "coding", "infrastructure"])
    case Designer =>
      Template("t3.small", "anthropic/claude-sonnet-4-20250514", "35m", "2GB", "15GB", "safeguard", 60,
               ["design", "ux", "review", "aesthetics"])
    case Support =>
      Template("t3.micro", "anthropic/claude-3-5-haiku-latest", "20m", "1GB", "10GB", "safeguard", 60,
               ["knowledge-base", "faq", "customer-support"])
    case Manager =>
      Template("t3.large", "anthropic/claude-opus-latest", "45m", "8GB", "30GB", "safeguard", 90,
               ["coordination", "decision-making", "planning", "oversight"])
  }

  /** Every template has all of its fields set, a known instance type and
      a known model. */
  lemma TemplatesComplete(t: BotType)
    ensures var tp := TemplateOf(t);
      && tp.instanceType in InstanceTypes && tp.model in Models
      && tp.heartbeat != "" && tp.memory != "" && tp.storage != "" && tp.compactionMode != ""
      && tp.cooldown > 0 && |tp.capabilities| > 0
  {
  }

  /** The lookup the corrected deploy validation performs: only the four
      keys of the template table name a bot type. */
  function ParseBotType(name: string): (r: Option<BotType>)
    ensures r.Some? <==> name in TypeNames
    ensures r.Some? ==> TypeName(r.value) == name
  {
    if name == "tool-builder" then Some(ToolBuilder)
    else if name == "designer" then Some(Designer)
    else if name == "support" then Some(Support)
    else if name == "manager" then Some(Manager)
    else None
  }

  lemma ParseTypeName(t: BotType)
    ensures ParseBotType(TypeName(t)) == Some(t)
  {
  }

  /** Property names every plain JavaScript object inherits from
      `Object.prototype`; indexing the template table with one of them gives
      a truthy value. */
  const InheritedNames: set<string> := {
    "constructor", "hasOwnProperty", "isPrototypeOf", "propertyIsEnumerable",
    "toLocaleString", "toString", "valueOf", "__proto__",
    "__defineGetter__", "__defineSetter__", "__lookupGetter__", "__lookupSetter__"
  }

  /** `BOT_TEMPLATES[botType]` as written (orchestrator.js:146): truthy for
      the four keys and for every inherited property name. */
  predicate TemplateLookupAsWritten(name: string)
  {
    name in TypeNames || name in InheritedNames
  }

  /** The request type "toString" passes the written check although it
      names no template, and the corrected lookup rejects it. */
  lemma AsWrittenAcceptsInheritedName()
    ensures TemplateLookupAsWritten("toString")
    ensures ParseBotType("toString") == None
    ensures forall name :: ParseBotType(name).Some? ==> TemplateLookupAsWritten(name)
  {
  }
}
