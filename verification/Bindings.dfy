/** The expressions that replace recorded literals: how they are written into the code, how JavaScript reads
    them back, and what they evaluate to. */
module Bindings {
  import opened Domain
  import opened Urls

  datatype Expr =
    | Site(name: string)                        // the website's value itself
    | Below(reference: string, name: string)    // a reference resolved against it
    | Secret(name: string)                      // a secret variable

  const SITE_PREFIX: string := "E2E_WEBSITE_"
  const SECRET_PREFIX: string := "E2E_VAR_"

  // ---- writing ----

  /** `JSON.stringify` on text without control characters. */
  function Escaped(s: string): string {
    if s == "" then ""
    else (if s[0] == '"' || s[0] == '\\' then ['\\', s[0]] else [s[0]]) + Escaped(s[1..])
  }

  function Quoted(s: string): string {
    ['"'] + Escaped(s) + ['"']
  }

  function Variable(name: string): string {
    "process.env[" + Quoted(name) + "]!"
  }

  function Render(e: Expr): string {
    match e
    case Site(name) => Variable(SITE_PREFIX + name)
    case Below(reference, name) => "new URL(" + Quoted(reference) + ", " + Variable(SITE_PREFIX + name) + ").href"
    case Secret(name) => Variable(SECRET_PREFIX + name)
  }

  // ---- reading ----

  /** The rest of a string literal after its opening quote: its value, and the text behind the closing one. */
  function ReadString(s: string): Option<(string, string)>
    decreases |s|
  {
    if s == "" then None
    else if s[0] == '"' then Some(("", s[1..]))
    else
      var skip := if s[0] == '\\' then 1 else 0;
      if |s| <= skip || (skip == 1 && s[1] != '"' && s[1] != '\\') then None
      else match ReadString(s[skip + 1..])
        case None => None
        case Some((value, rest)) => Some(([s[skip]] + value, rest))
  }

  function Literal(text: string, prefix: string): Option<(string, string)> {
    if prefix <= text then ReadString(text[|prefix|..]) else None
  }

  function ReadVariable(text: string): Option<(string, string)> {
    match Literal(text, "process.env[\"")
    case None => None
    case Some((name, rest)) => if "]!" <= rest then Some((name, rest[2..])) else None
  }

  function Named(name: string, prefix: string): Option<string> {
    if prefix <= name then Some(name[|prefix|..]) else None
  }

  function Read(text: string): Option<Expr> {
    match Literal(text, "new URL(\"")
    case Some((reference, rest)) => (
      match if ", " <= rest then ReadVariable(rest[2..]) else None
      case Some((name, after)) =>
        if after == ").href" && Named(name, SITE_PREFIX).Some? then Some(Below(reference, Named(name, SITE_PREFIX).value)) else None
      case None => None
    )
    case None => (
      match ReadVariable(text)
      case Some((name, "")) =>
        if Named(name, SITE_PREFIX).Some? then Some(Site(Named(name, SITE_PREFIX).value))
        else if Named(name, SECRET_PREFIX).Some? then Some(Secret(Named(name, SECRET_PREFIX).value))
        else None
      case _ => None
    )
  }

  lemma {:induction false} ReadEscaped(s: string, rest: string)
    ensures ReadString(Escaped(s) + ['"'] + rest) == Some((s, rest))
  {
    if s == "" {
      assert Escaped(s) + ['"'] + rest == ['"'] + rest;
    } else {
      var head := if s[0] == '"' || s[0] == '\\' then ['\\', s[0]] else [s[0]];
      var text := Escaped(s) + ['"'] + rest;
      assert text == head + (Escaped(s[1..]) + ['"'] + rest);
      assert text[|head|..] == Escaped(s[1..]) + ['"'] + rest;
      ReadEscaped(s[1..], rest);
      assert [s[0]] + s[1..] == s;
    }
  }

  lemma ReadLiteral(prefix: string, s: string, rest: string)
    requires prefix != "" && prefix[|prefix| - 1] == '"'
    ensures Literal(prefix[..|prefix| - 1] + Quoted(s) + rest, prefix) == Some((s, rest))
  {
    var text := prefix[..|prefix| - 1] + Quoted(s) + rest;
    assert text == prefix + (Escaped(s) + ['"'] + rest);
    assert text[|prefix|..] == Escaped(s) + ['"'] + rest;
    ReadEscaped(s, rest);
  }

  lemma ReadsVariable(name: string, rest: string)
    ensures ReadVariable(Variable(name) + rest) == Some((name, rest))
  {
    var prefix := "process.env[\"";
    assert prefix[..|prefix| - 1] == "process.env[";
    assert Variable(name) + rest == "process.env[" + Quoted(name) + ("]!" + rest);
    ReadLiteral(prefix, name, "]!" + rest);
    assert ("]!" + rest)[2..] == rest;
  }

  lemma ReferenceReadsBack(reference: string, name: string)
    ensures Read(Render(Below(reference, name))) == Some(Below(reference, name))
  {
    var prefix := "new URL(\"";
    var variable := Variable(SITE_PREFIX + name) + ").href";
    assert prefix[..|prefix| - 1] == "new URL(";
    assert Render(Below(reference, name)) == "new URL(" + Quoted(reference) + (", " + variable);
    ReadLiteral(prefix, reference, ", " + variable);
    assert (", " + variable)[2..] == variable;
    ReadsVariable(SITE_PREFIX + name, ").href");
    assert (SITE_PREFIX + name)[|SITE_PREFIX|..] == name;
  }

  /** What is written into the code is read back as the same expression. */
  lemma RenderedExpressionsReadBack(e: Expr)
    ensures Read(Render(e)) == Some(e)
  {
    match e {
      case Site(name) =>
        VariableReadsBack(SITE_PREFIX + name);
        hide Variable, ReadVariable, Literal;
        assert (SITE_PREFIX + name)[|SITE_PREFIX|..] == name;
      case Secret(name) =>
        VariableReadsBack(SECRET_PREFIX + name);
        hide Variable, ReadVariable, Literal;
        assert (SECRET_PREFIX + name)[|SECRET_PREFIX|..] == name;
        assert (SECRET_PREFIX + name)[4] == 'V' && SITE_PREFIX[4] == 'W';
      case Below(reference, name) => ReferenceReadsBack(reference, name);
    }
  }

  lemma VariableReadsBack(name: string)
    ensures Literal(Variable(name), "new URL(\"") == None && ReadVariable(Variable(name)) == Some((name, ""))
  {
    assert Variable(name)[0] == 'p';
    ReadsVariable(name, "");
    assert Variable(name) + "" == Variable(name);
  }

  /** Text that JSON leaves as it is between the quotes. */
  predicate Plain(s: string) {
    forall i :: 0 <= i < |s| ==> s[i] != '"' && s[i] != '\\'
  }

  /** The exact text of a website, of a reference below one, and of a secret. */
  lemma RenderedTexts(name: string, reference: string)
    requires Plain(name) && Plain(reference)
    ensures Render(Site(name)) == "process.env[\"" + ("E2E_WEBSITE_" + name) + "\"]!"
    ensures Render(Secret(name)) == "process.env[\"" + ("E2E_VAR_" + name) + "\"]!"
    ensures Render(Below(reference, name)) == "new URL(\"" + reference + "\", " + Render(Site(name)) + ").href"
  {
    VariableText(SITE_PREFIX + name);
    VariableText(SECRET_PREFIX + name);
    PlainText(reference);
    hide Escaped, Variable;
    var site := Variable(SITE_PREFIX + name);
    Unquoted("new URL(", reference, ", ");
    assert "new URL(" + ['"'] == "new URL(\"" && ['"'] + ", " == "\", ";
  }

  lemma VariableText(name: string)
    requires Plain(name)
    ensures Variable(name) == "process.env[\"" + name + "\"]!"
  {
    PlainText(name);
    hide Escaped;
    Unquoted("process.env[", name, "]!");
    assert "process.env[" + ['"'] == "process.env[\"" && ['"'] + "]!" == "\"]!";
  }

  lemma Unquoted(before: string, text: string, after: string)
    ensures before + (['"'] + text + ['"']) + after == (before + ['"']) + text + (['"'] + after)
  {
  }

  lemma {:induction false} PlainText(s: string)
    requires Plain(s)
    ensures Escaped(s) == s
  {
    if s != "" {
      PlainText(s[1..]);
      assert [s[0]] + s[1..] == s;
    }
  }

  // ---- evaluating ----

  /** The first value of a name; the run's environment assigns each name once. */
  function Lookup(pairs: seq<(string, string)>, name: string): Option<string> {
    if pairs == [] then None
    else if pairs[0].0 == name then Some(pairs[0].1)
    else Lookup(pairs[1..], name)
  }

  /** Where `page.goto` of the expression's value leads under the given websites. */
  function Destination(p: Parser, sites: seq<(string, string)>, e: Expr): Option<Url>
    requires !e.Secret?
  {
    match Lookup(sites, e.name)
    case None => None
    case Some(raw) =>
      if e.Site? then p.parse(raw)
      else match p.parse(raw)
        case Some(base) => if base.Web? then Resolve(p, e.reference, base) else None
        case None => None
  }
}
