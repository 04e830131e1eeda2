/** Rebinding recorded code: a walk over the syntax tree collects edits of string literals, and a
    right-to-left splice applies them. */
module Rebind {
  import opened Domain
  import opened Urls
  import opened Bindings

  /** The parts of the syntax tree the walk looks at; `Other` stands for every other node. */
  datatype Node =
    | StringLiteral(start: nat, end: nat, value: string)
    | Identifier(start: nat, end: nat, name: string)
    | Member(start: nat, end: nat, owner: Node, property: Node)
    | Call(start: nat, end: nat, callee: Node, args: seq<Node>)
    | Other(start: nat, end: nat, children: seq<Node>)

  /** Nested, ordered spans: what a parser produces. A literal has at least its quotes. */
  predicate WellFormed(n: Node)
    decreases n, 1
  {
    n.start <= n.end &&
    match n
    case StringLiteral(start, end, _) => start < end
    case Identifier(_, _, _) => true
    case Member(start, end, owner, property) =>
      WellFormed(owner) && WellFormed(property) && start <= owner.start && owner.end <= property.start && property.end <= end
    case Call(start, end, callee, args) => WellFormed(callee) && start <= callee.start && Ordered(args, callee.end, end)
    case Other(start, end, children) => Ordered(children, start, end)
  }

  predicate Ordered(nodes: seq<Node>, low: nat, high: nat)
    decreases nodes, 0
  {
    if nodes == [] then low <= high
    else WellFormed(nodes[0]) && low <= nodes[0].start && Ordered(nodes[1..], nodes[0].end, high)
  }

  datatype Edit = Edit(start: nat, end: nat, text: string)

  datatype Entry = Entry(name: string, raw: string, url: Url)

  datatype RecordedCheck = RecordedCheck(title: string, expected: string)

  datatype Config = Config(
    parser: Parser,
    code: string,
    entries: seq<Entry>,
    secrets: seq<(string, string)>,      // name and nonempty value
    summary: (string, nat) -> string)    // secrets made readable, cut to a length

  // ---- choosing a website ----

  /** The parsed websites, None if one does not parse. */
  function ParseAll(p: Parser, sites: seq<(string, string)>): Option<seq<Entry>> {
    if sites == [] then Some([])
    else match (p.parse(sites[0].1), ParseAll(p, sites[1..]))
      case (Some(url), Some(rest)) => Some([Entry(sites[0].0, sites[0].1, url)] + rest)
      case _ => None
  }

  function Filter(entries: seq<Entry>, preferred: Option<string>, wanted: bool): seq<Entry> {
    if entries == [] then []
    else (if (Some(entries[0].name) == preferred) == wanted then [entries[0]] else []) + Filter(entries[1..], preferred, wanted)
  }

  /** The stable sort that moves the preferred website to the front. */
  function PreferredFirst(entries: seq<Entry>, preferred: Option<string>): seq<Entry> {
    Filter(entries, preferred, true) + Filter(entries, preferred, false)
  }

  function Find(entries: seq<Entry>, wanted: Entry -> bool): Option<Entry> {
    if entries == [] then None else if wanted(entries[0]) then Some(entries[0]) else Find(entries[1..], wanted)
  }

  predicate SameOrigin(entry: Entry, target: Url) {
    OriginOf(entry.url) == OriginOf(target)
  }

  function Exactly(target: Url): Entry -> bool {
    (e: Entry) => e.url == target
  }

  function OfOrigin(target: Url): Entry -> bool {
    (e: Entry) => SameOrigin(e, target)
  }

  /** An exact match, else a website of the same origin. */
  function Choose(entries: seq<Entry>, target: Url): Option<Entry> {
    var exact := Find(entries, Exactly(target));
    if exact.Some? then exact else Find(entries, OfOrigin(target))
  }

  datatype Binding = Relative | Unnamed | Bound(expr: Expr)

  /** What a literal `goto` argument becomes. A literal that is no absolute URL is left alone. */
  function BindGoto(p: Parser, entries: seq<Entry>, literal: string): Binding {
    match p.parse(literal)
    case None => Relative
    case Some(target) =>
      match Choose(entries, target)
      case None => Unnamed
      case Some(site) => Bound(if target == site.url then Site(site.name) else Below(Reference(target), site.name))
  }

  function FindSecret(secrets: seq<(string, string)>, value: string): Option<string> {
    if secrets == [] then None
    else if secrets[0].1 == value then Some(secrets[0].0)
    else FindSecret(secrets[1..], value)
  }

  // ---- the walk, as functions of the tree ----

  /** The method name of `owner.name(...)`. */
  function Method(n: Node): Option<string>
    requires n.Call? && n.callee.Member?
  {
    if n.callee.property.Identifier? then Some(n.callee.property.name) else None
  }

  const MATCHERS: set<string> :=
    {"toBeVisible", "toContainText", "toHaveText", "toHaveValue", "toBeChecked", "toMatchAriaSnapshot"}

  predicate IsMethodCall(n: Node) {
    n.Call? && n.callee.Member?
  }

  predicate IsLiteralGoto(n: Node) {
    IsMethodCall(n) && Method(n) == Some("goto") && n.args != [] && n.args[0].StringLiteral?
  }

  function SecretEdits(cfg: Config, args: seq<Node>): seq<Edit> {
    if args == [] then []
    else
      (if args[0].StringLiteral? && FindSecret(cfg.secrets, args[0].value).Some? then
         [Edit(args[0].start, args[0].end, Render(Secret(FindSecret(cfg.secrets, args[0].value).value)))]
       else []) + SecretEdits(cfg, args[1..])
  }

  /** The edits a node adds itself. */
  function OwnEdits(cfg: Config, n: Node): seq<Edit> {
    if !IsMethodCall(n) then []
    else if IsLiteralGoto(n) then
      match BindGoto(cfg.parser, cfg.entries, n.args[0].value)
      case Bound(expr) => [Edit(n.args[0].start, n.args[0].end, Render(expr))]
      case _ => []
    else if Method(n) != Some("goto") then SecretEdits(cfg, n.args)
    else []
  }

  function Edits(cfg: Config, n: Node): seq<Edit>
    decreases n, 2
  {
    OwnEdits(cfg, n) + ChildEdits(cfg, n)
  }

  function ChildEdits(cfg: Config, n: Node): seq<Edit>
    decreases n, 1
  {
    match n
    case Member(_, _, owner, property) => Edits(cfg, owner) + Edits(cfg, property)
    case Call(_, _, callee, args) => Edits(cfg, callee) + AllEdits(cfg, args)
    case Other(_, _, children) => AllEdits(cfg, children)
    case _ => []
  }

  function AllEdits(cfg: Config, nodes: seq<Node>): seq<Edit>
    decreases nodes, 0
  {
    if nodes == [] then [] else Edits(cfg, nodes[0]) + AllEdits(cfg, nodes[1..])
  }

  /** A `goto` in the tree leads to no named website: the whole rebinding is refused. */
  predicate Refused(cfg: Config, n: Node)
    decreases n, 2
  {
    OwnRefused(cfg, n) || ChildRefused(cfg, n)
  }

  predicate OwnRefused(cfg: Config, n: Node) {
    IsLiteralGoto(n) && BindGoto(cfg.parser, cfg.entries, n.args[0].value).Unnamed?
  }

  predicate ChildRefused(cfg: Config, n: Node)
    decreases n, 1
  {
    match n
    case Member(_, _, owner, property) => Refused(cfg, owner) || Refused(cfg, property)
    case Call(_, _, callee, args) => Refused(cfg, callee) || AnyRefused(cfg, args)
    case Other(_, _, children) => AnyRefused(cfg, children)
    case _ => false
  }

  predicate AnyRefused(cfg: Config, nodes: seq<Node>)
    decreases nodes, 0
  {
    nodes != [] && (Refused(cfg, nodes[0]) || AnyRefused(cfg, nodes[1..]))
  }

  /** `expect(...)` called directly before a known matcher. */
  predicate IsMatcherCall(n: Node) {
    && IsMethodCall(n) && Method(n).Some? && Method(n).value in MATCHERS
    && n.callee.owner.Call? && n.callee.owner.callee.Identifier? && n.callee.owner.callee.name == "expect"
  }

  /** JavaScript's `slice`: bounds beyond the text are cut off. */
  function Slice(code: string, start: nat, end: nat): string {
    if start <= end && start <= |code| then code[start..if end <= |code| then end else |code|] else ""
  }

  function OwnChecks(cfg: Config, n: Node): seq<RecordedCheck> {
    if !IsMatcherCall(n) then []
    else
      var expected := if n.args != [] then Slice(cfg.code, n.args[0].start, n.args[0].end)
                      else if Method(n).value == "toBeVisible" then "visible" else Method(n).value;
      [RecordedCheck(cfg.summary(Slice(cfg.code, n.start, n.end), 200), cfg.summary(expected, 4000))]
  }

  function Checks(cfg: Config, n: Node): seq<RecordedCheck>
    decreases n, 2
  {
    OwnChecks(cfg, n) + ChildChecks(cfg, n)
  }

  function ChildChecks(cfg: Config, n: Node): seq<RecordedCheck>
    decreases n, 1
  {
    match n
    case Member(_, _, owner, property) => Checks(cfg, owner) + Checks(cfg, property)
    case Call(_, _, callee, args) => Checks(cfg, callee) + AllChecks(cfg, args)
    case Other(_, _, children) => AllChecks(cfg, children)
    case _ => []
  }

  function AllChecks(cfg: Config, nodes: seq<Node>): seq<RecordedCheck>
    decreases nodes, 0
  {
    if nodes == [] then [] else Checks(cfg, nodes[0]) + AllChecks(cfg, nodes[1..])
  }

  // ---- the walk, as the recorder runs it ----

  class Binder {
    const cfg: Config
    var replacements: seq<Edit>
    var checks: seq<RecordedCheck>
    var numbers: seq<nat>     // the ids of the checks

    /** The checks are numbered from 1 in the order they are found. */
    ghost predicate Valid()
      reads this
    {
      |numbers| == |checks| && forall i :: 0 <= i < |numbers| ==> numbers[i] == i + 1
    }

    constructor (cfg: Config)
      ensures Valid() && this.cfg == cfg && replacements == [] && checks == []
    {
      this.cfg := cfg;
      replacements, checks, numbers := [], [], [];
    }

    /** The part of `visit` that looks at the node itself; false is the thrown error. */
    method VisitSelf(n: Node) returns (ok: bool)
      requires Valid()
      modifies this
      ensures Valid()
      ensures ok <==> !OwnRefused(cfg, n)
      ensures ok ==> replacements == old(replacements) + OwnEdits(cfg, n)
      ensures ok ==> checks == old(checks) + OwnChecks(cfg, n)
    {
      ok := true;
      if n.Call? && n.callee.Member? {
        var method_ := Method(n);
        if method_ == Some("goto") && n.args != [] && n.args[0].StringLiteral? {
          match BindGoto(cfg.parser, cfg.entries, n.args[0].value) {
            case Relative =>
            case Unnamed => return false;
            case Bound(expr) =>
              replacements := replacements + [Edit(n.args[0].start, n.args[0].end, Render(expr))];
          }
        }
        if IsMatcherCall(n) {
          var expected := if n.args != [] then Slice(cfg.code, n.args[0].start, n.args[0].end)
                          else if method_ == Some("toBeVisible") then "visible" else method_.value;
          numbers := numbers + [|checks| + 1];
          checks := checks + [RecordedCheck(cfg.summary(Slice(cfg.code, n.start, n.end), 200), cfg.summary(expected, 4000))];
        }
        if method_ != Some("goto") {
          CollectSecrets(n.args);
        }
      }
    }

    method CollectSecrets(args: seq<Node>)
      modifies this`replacements
      ensures replacements == old(replacements) + SecretEdits(cfg, args)
    {
      ghost var goal := replacements + SecretEdits(cfg, args);
      for i := 0 to |args|
        invariant replacements + SecretEdits(cfg, args[i..]) == goal
      {
        assert args[i..][1..] == args[i + 1..];
        var item := args[i];
        if item.StringLiteral? {
          var found := FindSecret(cfg.secrets, item.value);
          if found.Some? {
            replacements := replacements + [Edit(item.start, item.end, Render(Secret(found.value)))];
          }
        }
      }
      assert args[|args|..] == [];
    }

    /** `visit`. */
    method Visit(n: Node) returns (ok: bool)
      requires Valid()
      modifies this
      ensures Valid()
      ensures ok <==> !Refused(cfg, n)
      ensures ok ==> replacements == old(replacements) + Edits(cfg, n)
      ensures ok ==> checks == old(checks) + Checks(cfg, n)
      decreases n, 2
    {
      hide OwnRefused, OwnEdits, OwnChecks;
      ghost var edits, found := replacements, checks;
      ok := VisitSelf(n);
      if ok {
        ok := VisitChildren(n);
        assert edits + OwnEdits(cfg, n) + ChildEdits(cfg, n) == edits + (OwnEdits(cfg, n) + ChildEdits(cfg, n));
        assert found + OwnChecks(cfg, n) + ChildChecks(cfg, n) == found + (OwnChecks(cfg, n) + ChildChecks(cfg, n));
      }
    }

    method VisitChildren(n: Node) returns (ok: bool)
      requires Valid()
      modifies this
      ensures Valid()
      ensures ok <==> !ChildRefused(cfg, n)
      ensures ok ==> replacements == old(replacements) + ChildEdits(cfg, n)
      ensures ok ==> checks == old(checks) + ChildChecks(cfg, n)
      decreases n, 1
    {
      hide OwnRefused, OwnEdits, OwnChecks;
      ok := true;
      match n {
        case Member(_, _, owner, property) =>
          ok := Visit(owner);
          if ok {
            ok := Visit(property);
          }
        case Call(_, _, callee, args) =>
          ok := Visit(callee);
          if ok {
            ok := VisitAll(args);
          }
        case Other(_, _, children) => ok := VisitAll(children);
        case _ =>
      }
    }

    method VisitAll(nodes: seq<Node>) returns (ok: bool)
      requires Valid()
      modifies this
      ensures Valid()
      ensures ok <==> !AnyRefused(cfg, nodes)
      ensures ok ==> replacements == old(replacements) + AllEdits(cfg, nodes)
      ensures ok ==> checks == old(checks) + AllChecks(cfg, nodes)
      decreases nodes, 0
    {
      ghost var edits, found := replacements + AllEdits(cfg, nodes), checks + AllChecks(cfg, nodes);
      for i := 0 to |nodes|
        invariant Valid() && AnyRefused(cfg, nodes[i..]) == AnyRefused(cfg, nodes)
        invariant replacements + AllEdits(cfg, nodes[i..]) == edits && checks + AllChecks(cfg, nodes[i..]) == found
      {
        FirstNode(cfg, nodes, i, replacements, checks);
        ok := Visit(nodes[i]);
        if !ok {
          return false;
        }
      }
      assert nodes[|nodes|..] == [];
      ok := true;
    }
  }

  lemma FirstNode(cfg: Config, nodes: seq<Node>, i: nat, edits: seq<Edit>, checks: seq<RecordedCheck>)
    requires i < |nodes|
    ensures AnyRefused(cfg, nodes[i..]) <==> Refused(cfg, nodes[i]) || AnyRefused(cfg, nodes[i + 1..])
    ensures edits + AllEdits(cfg, nodes[i..]) == edits + Edits(cfg, nodes[i]) + AllEdits(cfg, nodes[i + 1..])
    ensures checks + AllChecks(cfg, nodes[i..]) == checks + Checks(cfg, nodes[i]) + AllChecks(cfg, nodes[i + 1..])
  {
    assert nodes[i..][1..] == nodes[i + 1..];
  }
}
