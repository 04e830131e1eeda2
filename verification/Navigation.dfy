/** Which website a navigation is bound to, and where the expression that replaces it leads. */
module Navigation {
  import opened Domain
  import opened Urls
  import opened Bindings
  import opened Rebind

  // ---- which website is chosen ----

  lemma {:induction false} FindIsFirst(entries: seq<Entry>, wanted: Entry -> bool)
    ensures match Find(entries, wanted)
            case None => forall i :: 0 <= i < |entries| ==> !wanted(entries[i])
            case Some(e) => exists i :: 0 <= i < |entries| && entries[i] == e && wanted(e) &&
                                        forall j :: 0 <= j < i ==> !wanted(entries[j])
  {
    if entries != [] && !wanted(entries[0]) {
      FindIsFirst(entries[1..], wanted);
      if Find(entries[1..], wanted).Some? {
        var i :| 0 <= i < |entries[1..]| && entries[1..][i] == Find(entries, wanted).value &&
                 forall j :: 0 <= j < i ==> !wanted(entries[1..][j]);
        assert entries[i + 1] == entries[1..][i];
        forall j | 0 <= j < i + 1 ensures !wanted(entries[j]) {
          assert j > 0 ==> entries[j] == entries[1..][j - 1];
        }
      }
    }
  }

  lemma {:induction false} FindInTwo(xs: seq<Entry>, ys: seq<Entry>, wanted: Entry -> bool)
    ensures Find(xs + ys, wanted) == if Find(xs, wanted).Some? then Find(xs, wanted) else Find(ys, wanted)
  {
    if xs == [] {
      assert xs + ys == ys;
    } else {
      assert (xs + ys)[1..] == xs[1..] + ys;
      FindInTwo(xs[1..], ys, wanted);
    }
  }

  /** A preferred website that is wanted. */
  predicate Suits(entries: seq<Entry>, preferred: Option<string>, wanted: Entry -> bool) {
    exists i :: 0 <= i < |entries| && wanted(entries[i]) && Some(entries[i].name) == preferred
  }

  lemma {:induction false} FindFiltered(entries: seq<Entry>, preferred: Option<string>, wanted: Entry -> bool)
    ensures var first := Find(Filter(entries, preferred, true), wanted);
            && first.Some? == Suits(entries, preferred, wanted)
            && (first.Some? ==> first.value in entries && wanted(first.value) && Some(first.value.name) == preferred)
    ensures !Suits(entries, preferred, wanted) ==>
              Find(Filter(entries, preferred, false), wanted) == Find(entries, wanted)
  {
    if entries != [] {
      var head, rest := [entries[0]], entries[1..];
      FindFiltered(rest, preferred, wanted);
      SuitsFirst(entries, preferred, wanted);
      FindInTwo(head, Filter(rest, preferred, true), wanted);
      FindInTwo(head, Filter(rest, preferred, false), wanted);
      if Some(entries[0].name) == preferred {
        assert Filter(entries, preferred, true) == head + Filter(rest, preferred, true);
        assert Filter(entries, preferred, false) == Filter(rest, preferred, false);
      } else {
        assert Filter(entries, preferred, true) == Filter(rest, preferred, true);
        assert Filter(entries, preferred, false) == head + Filter(rest, preferred, false);
      }
    }
  }

  lemma SuitsFirst(entries: seq<Entry>, preferred: Option<string>, wanted: Entry -> bool)
    requires entries != []
    ensures Suits(entries, preferred, wanted) <==>
            (wanted(entries[0]) && Some(entries[0].name) == preferred) || Suits(entries[1..], preferred, wanted)
  {
    if Suits(entries[1..], preferred, wanted) {
      var i :| 0 <= i < |entries[1..]| && wanted(entries[1..][i]) && Some(entries[1..][i].name) == preferred;
      assert entries[i + 1] == entries[1..][i];
    }
  }

  /** Sorting the preferred website to the front lets it win, and changes nothing where it is not wanted. */
  lemma PreferredElseFirst(entries: seq<Entry>, preferred: Option<string>, wanted: Entry -> bool)
    ensures var found := Find(PreferredFirst(entries, preferred), wanted);
            if Suits(entries, preferred, wanted)
            then found.Some? && found.value in entries && wanted(found.value) && Some(found.value.name) == preferred
            else found == Find(entries, wanted)
  {
    FindFiltered(entries, preferred, wanted);
    FindInTwo(Filter(entries, preferred, true), Filter(entries, preferred, false), wanted);
  }

  /** An exact match beats any match of the origin; among equals the preferred website wins, then the order
      decides; and there is none just when no website has the origin of the target. */
  lemma ChosenWebsite(entries: seq<Entry>, preferred: Option<string>, target: Url)
    ensures var chosen := Choose(PreferredFirst(entries, preferred), target);
            && (chosen.None? <==> forall e :: e in entries ==> !SameOrigin(e, target))
            && (chosen.Some? ==> chosen.value in entries && SameOrigin(chosen.value, target))
            && (if exists e :: e in entries && e.url == target
                then chosen.Some? && chosen.value.url == target &&
                     (Suits(entries, preferred, Exactly(target)) ==> Some(chosen.value.name) == preferred)
                else if Suits(entries, preferred, OfOrigin(target))
                then chosen.Some? && Some(chosen.value.name) == preferred
                else chosen == Find(entries, OfOrigin(target)))
  {
    PreferredElseFirst(entries, preferred, Exactly(target));
    PreferredElseFirst(entries, preferred, OfOrigin(target));
    FindIsFirst(entries, Exactly(target));
    FindIsFirst(entries, OfOrigin(target));
    if e :| e in entries && e.url == target {
      assert Exactly(target)(e);
    }
  }

  /** A navigation is left alone if and only if it is no absolute URL, refused if and only if it is one whose
      origin no website has, and otherwise bound: to the website itself if that is the very target, else to
      pathname, search and hash below it. */
  lemma NavigationsAreBound(p: Parser, entries: seq<Entry>, literal: string)
    ensures var binding := BindGoto(p, entries, literal);
            && (binding.Relative? <==> p.parse(literal).None?)
            && (binding.Unnamed? <==>
                  p.parse(literal).Some? && forall e :: e in entries ==> OriginOf(e.url) != OriginOf(p.parse(literal).value))
            && (binding.Bound? ==>
                  exists e :: e in entries && OriginOf(e.url) == OriginOf(p.parse(literal).value) &&
                    binding.expr == if e.url == p.parse(literal).value then Site(e.name)
                                    else Below(Reference(p.parse(literal).value), e.name))
  {
    if p.parse(literal).Some? {
      var target := p.parse(literal).value;
      FindIsFirst(entries, Exactly(target));
      FindIsFirst(entries, OfOrigin(target));
    }
  }

  /** The websites are read in order with their names, and all of them must be URLs. */
  lemma {:induction false} WebsitesAreParsed(p: Parser, sites: seq<(string, string)>)
    ensures ParseAll(p, sites).None? <==> exists k :: 0 <= k < |sites| && p.parse(sites[k].1).None?
    ensures ParseAll(p, sites).Some? ==> |ParseAll(p, sites).value| == |sites|
    ensures ParseAll(p, sites).Some? ==>
              forall k :: 0 <= k < |sites| ==>
                p.parse(sites[k].1).Some? && ParseAll(p, sites).value[k] == Entry(sites[k].0, sites[k].1, p.parse(sites[k].1).value)
  {
    if sites != [] {
      WebsitesAreParsed(p, sites[1..]);
      assert forall k :: 0 < k < |sites| ==> sites[k] == sites[1..][k - 1];
      if p.parse(sites[0].1).Some? && ParseAll(p, sites[1..]).None? {
        var k :| 0 <= k < |sites[1..]| && p.parse(sites[1..][k].1).None?;
        assert p.parse(sites[k + 1].1).None?;
      }
    }
  }

  /** Sorting loses and adds no website. */
  lemma {:induction false} FilterMembers(entries: seq<Entry>, preferred: Option<string>, wanted: bool, e: Entry)
    ensures e in Filter(entries, preferred, wanted) <==> e in entries && (Some(e.name) == preferred) == wanted
  {
    if entries != [] {
      FilterMembers(entries[1..], preferred, wanted, e);
      assert e in entries <==> e == entries[0] || e in entries[1..];
    }
  }

  lemma SortedMembers(entries: seq<Entry>, preferred: Option<string>)
    ensures forall e :: e in PreferredFirst(entries, preferred) <==> e in entries
  {
    forall e ensures e in PreferredFirst(entries, preferred) <==> e in entries {
      FilterMembers(entries, preferred, true, e);
      FilterMembers(entries, preferred, false, e);
    }
  }

  // ---- what the rebound code does ----

  predicate Distinct(pairs: seq<(string, string)>) {
    forall i, j :: 0 <= i < j < |pairs| ==> pairs[i].0 != pairs[j].0
  }

  lemma {:induction false} LookupFinds(pairs: seq<(string, string)>, k: nat)
    requires Distinct(pairs) && k < |pairs|
    ensures Lookup(pairs, pairs[k].0) == Some(pairs[k].1)
  {
    if k > 0 {
      assert pairs[0].0 != pairs[k].0;
      LookupFinds(pairs[1..], k - 1);
    }
  }

  /** A secret is found if and only if some secret has this value, and the first one names it. */
  lemma {:induction false} SecretsAreFound(secrets: seq<(string, string)>, value: string)
    ensures FindSecret(secrets, value).Some? <==> exists k :: 0 <= k < |secrets| && secrets[k].1 == value
    ensures FindSecret(secrets, value).Some? ==>
              exists k :: 0 <= k < |secrets| && secrets[k] == (FindSecret(secrets, value).value, value) &&
                forall j :: 0 <= j < k ==> secrets[j].1 != value
  {
    if secrets != [] {
      if secrets[0].1 == value {
        assert secrets[0] == (FindSecret(secrets, value).value, value);
      } else {
        SecretsAreFound(secrets[1..], value);
        assert forall k :: 0 < k < |secrets| ==> secrets[k] == secrets[1..][k - 1];
        if FindSecret(secrets, value).Some? {
          var k :| 0 <= k < |secrets[1..]| && secrets[1..][k] == (FindSecret(secrets, value).value, value) &&
                   forall j :: 0 <= j < k ==> secrets[1..][j].1 != value;
          assert secrets[k + 1] == secrets[1..][k];
          forall j | 0 <= j < k + 1 ensures secrets[j].1 != value {
          }
        }
      }
    }
  }

  /** A replaced secret evaluates to the text it replaced. */
  lemma SecretsKeepTheirValue(secrets: seq<(string, string)>, value: string)
    requires Distinct(secrets) && FindSecret(secrets, value).Some?
    ensures Lookup(secrets, FindSecret(secrets, value).value) == Some(value)
  {
    SecretsAreFound(secrets, value);
    var k :| 0 <= k < |secrets| && secrets[k] == (FindSecret(secrets, value).value, value);
    LookupFinds(secrets, k);
  }

  lemma {:induction false} ParsedEntries(p: Parser, sites: seq<(string, string)>, e: Entry)
    requires ParseAll(p, sites).Some? && e in ParseAll(p, sites).value
    ensures exists k :: 0 <= k < |sites| && sites[k] == (e.name, e.raw) && p.parse(e.raw) == Some(e.url)
  {
    var first := p.parse(sites[0].1).value;
    if e != Entry(sites[0].0, sites[0].1, first) {
      ParsedEntries(p, sites[1..], e);
      var k :| 0 <= k < |sites[1..]| && sites[1..][k] == (e.name, e.raw) && p.parse(e.raw) == Some(e.url);
      assert sites[k + 1] == sites[1..][k];
    }
  }

  /** Evaluated with the recorded websites, the expression that replaces a navigation leads to the recorded
      target exactly when the target is the chosen website itself, or a URL with that website's userinfo whose
      path does not start with two slashes and whose query and fragment are not present but empty. */
  lemma RebindingKeepsNavigation(p: Parser, sites: seq<(string, string)>, preferred: Option<string>, literal: string)
    requires ValidParser(p) && Distinct(sites) && ParseAll(p, sites).Some?
    requires forall e :: e in ParseAll(p, sites).value ==> e.url.Web?
    requires BindGoto(p, PreferredFirst(ParseAll(p, sites).value, preferred), literal).Bound?
    ensures var entries := PreferredFirst(ParseAll(p, sites).value, preferred);
            var target := p.parse(literal).value;
            var site := Choose(entries, target).value;
            && !BindGoto(p, entries, literal).expr.Secret? && site.url.Web?
            && (Destination(p, sites, BindGoto(p, entries, literal).expr) == Some(target) <==>
                || target == site.url
                || (&& target.Web? && target.user == site.url.user && !DoubleSlash(target)
                    && target.query != Some("") && target.fragment != Some("")))
  {
    var parsed := ParseAll(p, sites).value;
    var target := p.parse(literal).value;
    var site := Choose(PreferredFirst(parsed, preferred), target).value;
    ChosenWebsite(parsed, preferred, target);
    ParsedEntries(p, sites, site);
    var k :| 0 <= k < |sites| && sites[k] == (site.name, site.raw) && p.parse(site.raw) == Some(site.url);
    LookupFinds(sites, k);
    if target != site.url {
      ReferenceResolves(p, literal, target, site.raw, site.url);
    }
  }

  // ---- a navigation that is not kept ----

  const SHOP: seq<(string, string)> := [("main", "https://shop.test/")]

  function Home(query: Option<string>): Url {
    Web(Origin("https", "shop.test"), "", [""], query, None)
  }

  /** What a parser does with the address of the shop, with and without an empty query behind it. */
  predicate ParsesTheShop(p: Parser) {
    p.parse("https://shop.test/") == Some(Home(None)) && p.parse("https://shop.test/?") == Some(Home(Some("")))
  }

  lemma HomeReference()
    ensures Reference(Home(Some(""))) == "/"
  {
    var path: seq<string> := [""];
    assert path[1..] == [] && Joined(path) == "/" + "" + "";
    assert Search(Home(Some(""))) == "" && Hash(Home(Some(""))) == "";
  }

  /** A recorded `goto('https://shop.test/?')` is replaced by an expression that leads to the shop without the
      question mark. */
  lemma EmptyQueryIsLost(p: Parser)
    requires ValidParser(p) && ParsesTheShop(p)
    ensures ParseAll(p, SHOP) == Some([Entry("main", "https://shop.test/", Home(None))])
    ensures BindGoto(p, PreferredFirst(ParseAll(p, SHOP).value, None), "https://shop.test/?") == Bound(Below("/", "main"))
    ensures Destination(p, SHOP, Below("/", "main")) == Some(Home(None)) != p.parse("https://shop.test/?")
  {
    var entries := [Entry("main", "https://shop.test/", Home(None))];
    assert SHOP[1..] == [] && ParseAll(p, SHOP[1..]) == Some([]);
    assert ParseAll(p, SHOP) == Some(entries + []);
    assert entries + [] == entries;
    ChosenWebsite(entries, None, Home(Some("")));
    assert Entry("main", "https://shop.test/", Home(None)) in entries;
    HomeReference();
    ResolveSingleSlash(p, Home(Some("")), Home(None));
  }

  /** The assumptions on the parser can be met: this excerpt knows the two addresses of the shop. */
  const EXCERPT := Parser(
    text => if text == "https://shop.test/" then Some(Home(None))
            else if text == "https://shop.test/?" then Some(Home(Some("")))
            else None,
    (scheme, text) => None,
    c => 'a' <= c <= 'z',
    c => 'a' <= c <= 'z',
    c => 'a' <= c <= 'z',
    c => [c])

  lemma ExcerptIsValid()
    ensures ValidParser(EXCERPT) && ParsesTheShop(EXCERPT)
  {
    forall text | EXCERPT.parse(text).Some? ensures ParsedRecord(EXCERPT, EXCERPT.parse(text).value) {
      assert WellParsed(EXCERPT, EXCERPT.parse(text).value);
    }
  }
}
