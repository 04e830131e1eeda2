/** What rebinding promises: each edit replaces a literal by its own binding, none is missing, and all are
    applied at once. */
module RebindGuarantees {
  import opened Domain
  import opened Urls
  import opened Bindings
  import opened Rebind
  import opened Navigation
  import opened Splice

  // ---- the spans of the edits ----

  ghost predicate Within(edits: seq<Edit>, low: nat, high: nat) {
    forall i :: 0 <= i < |edits| ==> low <= edits[i].start < edits[i].end <= high
  }

  /** Every edit of one list is apart from every edit of the other. */
  ghost predicate ApartFrom(xs: seq<Edit>, ys: seq<Edit>) {
    forall i, j :: 0 <= i < |xs| && 0 <= j < |ys| ==> xs[i].end <= ys[j].start || ys[j].end <= xs[i].start
  }

  lemma ApartConcat(xs: seq<Edit>, ys: seq<Edit>)
    requires Apart(xs) && Apart(ys) && ApartFrom(xs, ys)
    ensures Apart(xs + ys)
  {
    var all := xs + ys;
    forall i, j | 0 <= i < j < |all| ensures all[i].end <= all[j].start || all[j].end <= all[i].start {
      if i < |xs| <= j {
        assert all[i] == xs[i] && all[j] == ys[j - |xs|];
      } else if |xs| <= i {
        assert all[i] == ys[i - |xs|] && all[j] == ys[j - |xs|];
      } else {
        assert all[i] == xs[i] && all[j] == xs[j];
      }
    }
  }

  lemma LeftOf(xs: seq<Edit>, ys: seq<Edit>, low: nat, mid: nat, mid': nat, high: nat)
    requires Within(xs, low, mid) && Within(ys, mid', high) && Apart(xs) && Apart(ys) && low <= mid <= mid' <= high
    ensures Apart(xs + ys) && Within(xs + ys, low, high) && ApartFrom(xs, ys)
  {
    ApartConcat(xs, ys);
  }

  lemma {:induction false} OrderedBounds(nodes: seq<Node>, low: nat, high: nat)
    requires Ordered(nodes, low, high)
    ensures low <= high
    decreases nodes
  {
    if nodes != [] {
      OrderedBounds(nodes[1..], nodes[0].end, high);
    }
  }

  /** The edits of a well-formed tree lie in its span and never overlap. */
  lemma {:induction false} EditsApart(cfg: Config, n: Node)
    requires WellFormed(n)
    ensures Apart(Edits(cfg, n)) && Within(Edits(cfg, n), n.start, n.end)
    decreases n, 3
  {
    match n {
      case Member(start, end, owner, property) =>
        EditsApart(cfg, owner);
        EditsApart(cfg, property);
        LeftOf(Edits(cfg, owner), Edits(cfg, property), start, owner.end, property.start, end);
        assert Edits(cfg, n) == Edits(cfg, owner) + Edits(cfg, property);
      case Call(start, end, callee, args) => CallApart(cfg, n);
      case Other(start, end, children) => AllEditsApart(cfg, children, start, end);
      case _ =>
    }
  }

  lemma {:induction false} AllEditsApart(cfg: Config, nodes: seq<Node>, low: nat, high: nat)
    requires Ordered(nodes, low, high)
    ensures Apart(AllEdits(cfg, nodes)) && Within(AllEdits(cfg, nodes), low, high)
    decreases nodes, 0
  {
    if nodes != [] {
      EditsApart(cfg, nodes[0]);
      AllEditsApart(cfg, nodes[1..], nodes[0].end, high);
      OrderedBounds(nodes[1..], nodes[0].end, high);
      LeftOf(Edits(cfg, nodes[0]), AllEdits(cfg, nodes[1..]), low, nodes[0].end, nodes[0].end, high);
    }
  }

  /** A call edits its own literal arguments, which the walk below leaves alone. */
  lemma {:induction false} CallApart(cfg: Config, n: Node)
    requires n.Call? && WellFormed(n)
    ensures Apart(Edits(cfg, n)) && Within(Edits(cfg, n), n.start, n.end)
    decreases n, 2
  {
    var own, below, rest := OwnEdits(cfg, n), Edits(cfg, n.callee), AllEdits(cfg, n.args);
    EditsApart(cfg, n.callee);
    AllEditsApart(cfg, n.args, n.callee.end, n.end);
    OrderedBounds(n.args, n.callee.end, n.end);
    OwnApart(cfg, n);
    LeftOf(below, own, n.start, n.callee.end, n.callee.end, n.end);
    LeftOf(below, rest, n.start, n.callee.end, n.callee.end, n.end);
    ApartThree(own, below, rest);
    assert Edits(cfg, n) == own + (below + rest);
  }

  lemma ApartThree(own: seq<Edit>, below: seq<Edit>, rest: seq<Edit>)
    requires Apart(own) && Apart(below + rest) && ApartFrom(below, own) && ApartFrom(own, rest)
    ensures Apart(own + (below + rest))
  {
    forall i, j | 0 <= i < |own| && 0 <= j < |below + rest|
      ensures own[i].end <= (below + rest)[j].start || (below + rest)[j].end <= own[i].start {
      if j < |below| {
        assert (below + rest)[j] == below[j];
      } else {
        assert (below + rest)[j] == rest[j - |below|];
      }
    }
    ApartConcat(own, below + rest);
  }

  lemma {:induction false} OwnApart(cfg: Config, n: Node)
    requires n.Call? && WellFormed(n)
    ensures Apart(OwnEdits(cfg, n)) && Within(OwnEdits(cfg, n), n.callee.end, n.end)
    ensures ApartFrom(OwnEdits(cfg, n), AllEdits(cfg, n.args))
    decreases n, 1
  {
    OrderedBounds(n.args, n.callee.end, n.end);
    if IsLiteralGoto(n) {
      GotoApart(cfg, n);
    } else {
      hide FindSecret, Render;
      SecretsApart(cfg, n.args, n.callee.end, n.end);
      assert OwnEdits(cfg, n) == [] || OwnEdits(cfg, n) == SecretEdits(cfg, n.args);
    }
  }

  /** The one edit of a literal navigation, if any, replaces its first argument. */
  lemma GotoEdit(cfg: Config, n: Node)
    requires IsLiteralGoto(n)
    ensures |OwnEdits(cfg, n)| <= 1
    ensures OwnEdits(cfg, n) != [] ==> OwnEdits(cfg, n)[0].start == n.args[0].start && OwnEdits(cfg, n)[0].end == n.args[0].end
  {
  }

  lemma {:induction false} GotoApart(cfg: Config, n: Node)
    requires IsLiteralGoto(n) && WellFormed(n)
    ensures Apart(OwnEdits(cfg, n)) && Within(OwnEdits(cfg, n), n.callee.end, n.end)
    ensures ApartFrom(OwnEdits(cfg, n), AllEdits(cfg, n.args))
    decreases n, 0
  {
    var rest := n.args[1..];
    assert Edits(cfg, n.args[0]) == [];
    hide OwnEdits;
    AllEditsApart(cfg, rest, n.args[0].end, n.end);
    OrderedBounds(rest, n.args[0].end, n.end);
    assert AllEdits(cfg, n.args) == [] + AllEdits(cfg, rest);
    GotoEdit(cfg, n);
    assert WellFormed(n.args[0]);
  }

  lemma {:induction false} SecretsApart(cfg: Config, args: seq<Node>, low: nat, high: nat)
    requires Ordered(args, low, high)
    ensures Apart(SecretEdits(cfg, args)) && Within(SecretEdits(cfg, args), low, high)
    ensures ApartFrom(SecretEdits(cfg, args), AllEdits(cfg, args))
    decreases args, 1
  {
    if args != [] {
      var rest := args[1..];
      SecretsApart(cfg, rest, args[0].end, high);
      AllEditsApart(cfg, rest, args[0].end, high);
      OrderedBounds(rest, args[0].end, high);
      EditsApart(cfg, args[0]);
      var head := SecretEdits(cfg, args)[..|SecretEdits(cfg, args)| - |SecretEdits(cfg, rest)|];
      assert SecretEdits(cfg, args) == head + SecretEdits(cfg, rest);
      assert Within(head, low, args[0].end) && Apart(head);
      LeftOf(head, SecretEdits(cfg, rest), low, args[0].end, args[0].end, high);
      LeftOf(head, AllEdits(cfg, rest), low, args[0].end, args[0].end, high);
      LeftOf(Edits(cfg, args[0]), SecretEdits(cfg, rest), args[0].start, args[0].end, args[0].end, high);
      assert head == [] || Edits(cfg, args[0]) == [];
      ApartFour(head, SecretEdits(cfg, rest), Edits(cfg, args[0]), AllEdits(cfg, rest));
    }
  }

  lemma ApartFour(a: seq<Edit>, b: seq<Edit>, c: seq<Edit>, d: seq<Edit>)
    requires (a == [] || c == []) && ApartFrom(a, d) && ApartFrom(c, b) && ApartFrom(b, d)
    ensures ApartFrom(a + b, c + d)
  {
    forall i, j | 0 <= i < |a + b| && 0 <= j < |c + d|
      ensures (a + b)[i].end <= (c + d)[j].start || (c + d)[j].end <= (a + b)[i].start {
      var x := if i < |a| then a[i] else b[i - |a|];
      var y := if j < |c| then c[j] else d[j - |c|];
      assert (a + b)[i] == x && (c + d)[j] == y;
    }
  }

  // ---- what is edited ----

  predicate Contains(n: Node, m: Node)
    decreases n, 1
  {
    || m == n
    || match n
       case Member(_, _, owner, property) => Contains(owner, m) || Contains(property, m)
       case Call(_, _, callee, args) => Contains(callee, m) || AnyContains(args, m)
       case Other(_, _, children) => AnyContains(children, m)
       case _ => false
  }

  predicate AnyContains(nodes: seq<Node>, m: Node)
    decreases nodes, 0
  {
    nodes != [] && (Contains(nodes[0], m) || AnyContains(nodes[1..], m))
  }

  /** `owner.name(...)`, written out. */
  predicate Calls(call: Node, name: string) {
    call.Call? && call.callee.Member? && call.callee.property.Identifier? && call.callee.property.name == name
  }

  /** `owner.goto('literal', ...)`, written out. */
  predicate NavigatesTo(call: Node, literal: string) {
    Calls(call, "goto") && call.args != [] && call.args[0].StringLiteral? && call.args[0].value == literal
  }

  predicate Spans(e: Edit, literal: Node) {
    e.start == literal.start && e.end == literal.end
  }

  /** The edit replaces the call's literal target, and its text reads back as the binding of that target. */
  predicate RebindsTarget(cfg: Config, call: Node, e: Edit) {
    && call.Call? && call.args != [] && call.args[0].StringLiteral? && NavigatesTo(call, call.args[0].value)
    && Spans(e, call.args[0]) && Read(e.text).Some? && !Read(e.text).value.Secret?
    && BindGoto(cfg.parser, cfg.entries, call.args[0].value) == Bound(Read(e.text).value)
  }

  /** The edit replaces a literal argument that spells a secret, and its text reads back as that secret. */
  predicate HidesArgument(cfg: Config, arg: Node, e: Edit) {
    && arg.StringLiteral? && Spans(e, arg)
    && FindSecret(cfg.secrets, arg.value).Some? && Read(e.text) == Some(Secret(FindSecret(cfg.secrets, arg.value).value))
  }

  predicate HidesSecret(cfg: Config, call: Node, e: Edit) {
    && call.Call? && call.callee.Member? && !Calls(call, "goto")
    && exists k :: 0 <= k < |call.args| && HidesArgument(cfg, call.args[k], e)
  }

  ghost predicate Justified(cfg: Config, n: Node, e: Edit) {
    exists call :: Contains(n, call) && (RebindsTarget(cfg, call, e) || HidesSecret(cfg, call, e))
  }

  lemma {:induction false} SecretEditJustified(cfg: Config, args: seq<Node>, e: Edit)
    requires e in SecretEdits(cfg, args)
    ensures exists k :: 0 <= k < |args| && HidesArgument(cfg, args[k], e)
    decreases |args|
  {
    if e in SecretEdits(cfg, args[1..]) {
      SecretEditJustified(cfg, args[1..], e);
      var k :| 0 <= k < |args[1..]| && HidesArgument(cfg, args[1..][k], e);
      assert args[k + 1] == args[1..][k];
    } else {
      RenderedExpressionsReadBack(Secret(FindSecret(cfg.secrets, args[0].value).value));
      assert HidesArgument(cfg, args[0], e);
    }
  }

  lemma OwnEditJustified(cfg: Config, n: Node, e: Edit)
    requires e in OwnEdits(cfg, n)
    ensures RebindsTarget(cfg, n, e) || HidesSecret(cfg, n, e)
  {
    if IsLiteralGoto(n) {
      RenderedExpressionsReadBack(BindGoto(cfg.parser, cfg.entries, n.args[0].value).expr);
    } else {
      SecretEditJustified(cfg, n.args, e);
    }
  }

  /** Every edit replaces the literal target of a navigation of the tree by that target's binding, or a literal
      argument of another method call by the secret it spells; nothing else is touched. */
  lemma {:induction false} EditsReplaceLiterals(cfg: Config, n: Node, e: Edit)
    requires e in Edits(cfg, n)
    ensures Justified(cfg, n, e)
    decreases n, 1
  {
    if e in OwnEdits(cfg, n) {
      OwnEditJustified(cfg, n, e);
      assert Contains(n, n);
    } else {
      match n {
        case Member(_, _, owner, property) =>
          if e in Edits(cfg, owner) {
            EditsReplaceLiterals(cfg, owner, e);
          } else {
            EditsReplaceLiterals(cfg, property, e);
          }
        case Call(_, _, callee, args) =>
          if e in Edits(cfg, callee) {
            EditsReplaceLiterals(cfg, callee, e);
          } else {
            AllEditsReplaceLiterals(cfg, args, e);
          }
        case Other(_, _, children) => AllEditsReplaceLiterals(cfg, children, e);
        case _ =>
      }
    }
  }

  lemma {:induction false} AllEditsReplaceLiterals(cfg: Config, nodes: seq<Node>, e: Edit)
    requires e in AllEdits(cfg, nodes)
    ensures exists call :: AnyContains(nodes, call) && (RebindsTarget(cfg, call, e) || HidesSecret(cfg, call, e))
    decreases nodes, 0
  {
    if e in Edits(cfg, nodes[0]) {
      EditsReplaceLiterals(cfg, nodes[0], e);
    } else {
      AllEditsReplaceLiterals(cfg, nodes[1..], e);
    }
  }

  /** No edit is forgotten: what a call in the tree asks for is among the collected edits. */
  lemma {:induction false} OwnEditsAreKept(cfg: Config, n: Node, call: Node, e: Edit)
    requires Contains(n, call) && e in OwnEdits(cfg, call)
    ensures e in Edits(cfg, n)
    decreases n, 1
  {
    hide OwnEdits;
    if call != n {
      match n {
        case Member(_, _, owner, property) =>
          if Contains(owner, call) {
            OwnEditsAreKept(cfg, owner, call, e);
          } else {
            OwnEditsAreKept(cfg, property, call, e);
          }
        case Call(_, _, callee, args) =>
          if Contains(callee, call) {
            OwnEditsAreKept(cfg, callee, call, e);
          } else {
            AllOwnEditsAreKept(cfg, args, call, e);
          }
        case Other(_, _, children) => AllOwnEditsAreKept(cfg, children, call, e);
        case _ =>
      }
    }
  }

  lemma {:induction false} AllOwnEditsAreKept(cfg: Config, nodes: seq<Node>, call: Node, e: Edit)
    requires AnyContains(nodes, call) && e in OwnEdits(cfg, call)
    ensures e in AllEdits(cfg, nodes)
    decreases nodes, 0
  {
    hide OwnEdits;
    if Contains(nodes[0], call) {
      OwnEditsAreKept(cfg, nodes[0], call, e);
    } else {
      AllOwnEditsAreKept(cfg, nodes[1..], call, e);
    }
  }

  /** Each navigation to an absolute URL of a website's origin is replaced by its binding. */
  lemma GotosAreEdited(cfg: Config, n: Node, call: Node, literal: string, entry: Entry)
    requires Contains(n, call) && NavigatesTo(call, literal)
    requires cfg.parser.parse(literal).Some? && entry in cfg.entries && OriginOf(entry.url) == OriginOf(cfg.parser.parse(literal).value)
    ensures BindGoto(cfg.parser, cfg.entries, literal).Bound?
    ensures var text := Render(BindGoto(cfg.parser, cfg.entries, literal).expr);
            Edit(call.args[0].start, call.args[0].end, text) in Edits(cfg, n)
  {
    NavigationsAreBound(cfg.parser, cfg.entries, literal);
    OwnEditsAreKept(cfg, n, call, OwnEdits(cfg, call)[0]);
  }

  /** Each string literal argument of another method call that spells a secret is replaced by its variable. */
  lemma SecretsAreEdited(cfg: Config, n: Node, call: Node, k: nat, name: string)
    requires Contains(n, call) && call.Call? && call.callee.Member? && !Calls(call, "goto")
    requires k < |call.args| && call.args[k].StringLiteral? && (name, call.args[k].value) in cfg.secrets
    ensures FindSecret(cfg.secrets, call.args[k].value).Some?
    ensures var text := Render(Secret(FindSecret(cfg.secrets, call.args[k].value).value));
            Edit(call.args[k].start, call.args[k].end, text) in Edits(cfg, n)
  {
    SecretsAreFound(cfg.secrets, call.args[k].value);
    SecretArgument(cfg, call.args, k);
    var text := Render(Secret(FindSecret(cfg.secrets, call.args[k].value).value));
    assert OwnEdits(cfg, call) == SecretEdits(cfg, call.args);
    OwnEditsAreKept(cfg, n, call, Edit(call.args[k].start, call.args[k].end, text));
  }

  lemma {:induction false} SecretArgument(cfg: Config, args: seq<Node>, k: nat)
    requires k < |args| && args[k].StringLiteral? && FindSecret(cfg.secrets, args[k].value).Some?
    ensures var text := Render(Secret(FindSecret(cfg.secrets, args[k].value).value));
            Edit(args[k].start, args[k].end, text) in SecretEdits(cfg, args)
  {
    if k > 0 {
      SecretArgument(cfg, args[1..], k - 1);
    }
  }

  /** The literal navigates to an absolute URL whose origin no website has. */
  ghost predicate LeadsNowhere(p: Parser, entries: seq<Entry>, literal: string) {
    p.parse(literal).Some? && forall e :: e in entries ==> OriginOf(e.url) != OriginOf(p.parse(literal).value)
  }

  lemma NavigationsAreLiteralGotos(call: Node)
    ensures IsLiteralGoto(call) <==> exists literal :: NavigatesTo(call, literal)
    ensures IsLiteralGoto(call) ==> NavigatesTo(call, call.args[0].value)
  {
    if IsLiteralGoto(call) {
      assert NavigatesTo(call, call.args[0].value);
    }
  }

  lemma OwnRefusals(cfg: Config, call: Node)
    ensures OwnRefused(cfg, call) <==>
            exists literal :: NavigatesTo(call, literal) && LeadsNowhere(cfg.parser, cfg.entries, literal)
  {
    NavigationsAreLiteralGotos(call);
    if IsLiteralGoto(call) {
      NavigationsAreBound(cfg.parser, cfg.entries, call.args[0].value);
    }
  }

  /** A call of the tree navigates to an absolute URL that no website covers. */
  ghost predicate Strays(cfg: Config, n: Node) {
    exists call, literal :: Contains(n, call) && NavigatesTo(call, literal) && LeadsNowhere(cfg.parser, cfg.entries, literal)
  }

  /** Rebinding is refused if and only if some literal navigation of the tree leads to an origin no website has;
      a relative URL is never a reason. */
  lemma RefusedForAnUnnamedSite(cfg: Config, n: Node)
    ensures Refused(cfg, n) <==> Strays(cfg, n)
  {
    RefusedByACall(cfg, n);
    if call :| Contains(n, call) && OwnRefused(cfg, call) {
      OwnRefusals(cfg, call);
    }
    if call, literal :| Contains(n, call) && NavigatesTo(call, literal) && LeadsNowhere(cfg.parser, cfg.entries, literal) {
      OwnRefusals(cfg, call);
    }
  }

  lemma {:induction false} RefusedByACall(cfg: Config, n: Node)
    ensures Refused(cfg, n) <==> exists call :: Contains(n, call) && OwnRefused(cfg, call)
    decreases n, 1
  {
    match n {
      case Member(_, _, owner, property) =>
        RefusedByACall(cfg, owner);
        RefusedByACall(cfg, property);
      case Call(_, _, callee, args) =>
        RefusedByACall(cfg, callee);
        AnyRefusedByACall(cfg, args);
      case Other(_, _, children) => AnyRefusedByACall(cfg, children);
      case _ =>
    }
    if Refused(cfg, n) {
      if OwnRefused(cfg, n) {
        assert Contains(n, n);
      }
    }
  }

  lemma {:induction false} AnyRefusedByACall(cfg: Config, nodes: seq<Node>)
    ensures AnyRefused(cfg, nodes) <==> exists call :: AnyContains(nodes, call) && OwnRefused(cfg, call)
    decreases nodes, 0
  {
    if nodes != [] {
      RefusedByACall(cfg, nodes[0]);
      AnyRefusedByACall(cfg, nodes[1..]);
    }
  }

  // ---- the checks ----

  /** `expect(...).matcher(...)` with a known matcher, written out. */
  predicate Asserts(call: Node, matcher: string) {
    && Calls(call, matcher)
    && matcher in ["toBeVisible", "toContainText", "toHaveText", "toHaveValue", "toBeChecked", "toMatchAriaSnapshot"]
    && call.callee.owner.Call? && call.callee.owner.callee.Identifier? && call.callee.owner.callee.name == "expect"
  }

  /** The check such a call is recorded as: its own text, and the text of its argument or else what it stands for. */
  predicate Records(cfg: Config, call: Node, matcher: string, check: RecordedCheck)
    requires call.Call? && call.start <= call.end <= |cfg.code|
    requires call.args != [] ==> call.args[0].start <= call.args[0].end <= |cfg.code|
  {
    && check.title == cfg.summary(cfg.code[call.start..call.end], 200)
    && check.expected == cfg.summary(if call.args != [] then cfg.code[call.args[0].start..call.args[0].end]
                                     else if matcher == "toBeVisible" then "visible"
                                     else matcher, 4000)
  }

  /** A call gives one check if it asserts with a known matcher, and none otherwise. */
  lemma OwnCheck(cfg: Config, call: Node)
    ensures |OwnChecks(cfg, call)| == if exists matcher :: Asserts(call, matcher) then 1 else 0
    ensures forall matcher :: Asserts(call, matcher) && call.start <= call.end <= |cfg.code| &&
                              (call.args != [] ==> call.args[0].start <= call.args[0].end <= |cfg.code|) ==>
                              Records(cfg, call, matcher, OwnChecks(cfg, call)[0])
  {
    if IsMatcherCall(call) {
      assert Asserts(call, call.callee.property.name);
    }
  }

  /** Every check of the walk is one its tree's assertions record, and every assertion is recorded. */
  lemma {:induction false} AssertionsAreRecorded(cfg: Config, n: Node, check: RecordedCheck)
    ensures check in Checks(cfg, n) <==> exists call :: Contains(n, call) && check in OwnChecks(cfg, call)
    decreases n, 1
  {
    hide OwnChecks;
    match n {
      case Member(_, _, owner, property) =>
        AssertionsAreRecorded(cfg, owner, check);
        AssertionsAreRecorded(cfg, property, check);
      case Call(_, _, callee, args) =>
        AssertionsAreRecorded(cfg, callee, check);
        AllAssertionsAreRecorded(cfg, args, check);
      case Other(_, _, children) => AllAssertionsAreRecorded(cfg, children, check);
      case _ =>
    }
    assert Contains(n, n);
  }

  lemma {:induction false} AllAssertionsAreRecorded(cfg: Config, nodes: seq<Node>, check: RecordedCheck)
    ensures check in AllChecks(cfg, nodes) <==> exists call :: AnyContains(nodes, call) && check in OwnChecks(cfg, call)
    decreases nodes, 0
  {
    hide OwnChecks;
    if nodes != [] {
      AssertionsAreRecorded(cfg, nodes[0], check);
      AllAssertionsAreRecorded(cfg, nodes[1..], check);
    }
  }

  // ---- the whole function ----

  datatype Rebound = InvalidWebsite | UnnamedSite | Rebound(code: string, checks: seq<RecordedCheck>)

  function NonEmpty(secrets: seq<(string, string)>): seq<(string, string)> {
    if secrets == [] then [] else (if secrets[0].1 != "" then [secrets[0]] else []) + NonEmpty(secrets[1..])
  }

  /** Only secrets with a value count. */
  lemma {:induction false} EmptySecretsAreDropped(secrets: seq<(string, string)>, secret: (string, string))
    ensures secret in NonEmpty(secrets) <==> secret in secrets && secret.1 != ""
  {
    if secrets != [] {
      EmptySecretsAreDropped(secrets[1..], secret);
      assert secret in secrets <==> secret == secrets[0] || secret in secrets[1..];
    }
  }

  lemma EditsInText(cfg: Config, root: Node)
    requires WellFormed(root) && root.end <= |cfg.code|
    ensures InText(cfg.code, Edits(cfg, root)) && Apart(Edits(cfg, root))
  {
    EditsApart(cfg, root);
  }

  /** Simultaneous substitution of all edits of the tree, unless a navigation has no named website. */
  ghost function Rebinding(cfg: Config, root: Node): Rebound
    requires WellFormed(root) && root.end <= |cfg.code|
  {
    EditsInText(cfg, root);
    if Refused(cfg, root) then UnnamedSite
    else Rebound(Substitute(cfg.code, Edits(cfg, root), 0), Checks(cfg, root))
  }

  /** `bindRecordingCode`, on the syntax tree of the code. */
  method BindRecordingCode(code: string, root: Node, p: Parser, sites: seq<(string, string)>, preferred: Option<string>,
                           secrets: seq<(string, string)>, summary: (string, nat) -> string)
    returns (result: Rebound)
    requires WellFormed(root) && root.end <= |code|
    ensures result.InvalidWebsite? <==> ParseAll(p, sites).None?
    ensures ParseAll(p, sites).Some? ==>
              var cfg := Config(p, code, PreferredFirst(ParseAll(p, sites).value, preferred), NonEmpty(secrets), summary);
              && result == Rebinding(cfg, root)
              && (result.UnnamedSite? <==> Strays(cfg, root))
  {
    hide Strays;
    hide Substitute, Edits, Refused, Checks;
    match ParseAll(p, sites) {
      case None => return InvalidWebsite;
      case Some(entries) =>
        var cfg := Config(p, code, PreferredFirst(entries, preferred), NonEmpty(secrets), summary);
        RefusedForAnUnnamedSite(cfg, root);
        var binder := new Binder(cfg);
        var ok := binder.Visit(root);
        if !ok {
          return UnnamedSite;
        }
        EditsInText(cfg, root);
        assert binder.replacements == Edits(cfg, root) && binder.checks == Checks(cfg, root);
        var bound := ApplyEdits(code, binder.replacements);
        return Rebound(bound, binder.checks);
    }
  }
}
