// The HTTP method sets requested of CloudFront.
module Methods {
  const BASIC := ["HEAD", "GET"]
  const WITH_OPTIONS := ["HEAD", "GET", "OPTIONS"]
  const ALL := ["HEAD", "GET", "OPTIONS", "POST", "PUT", "DELETE"]

  predicate IsWrite(m: string) {
    m == "POST" || m == "PUT" || m == "DELETE"
  }

  function Options(requested: seq<string>): seq<string> {
    if requested == [] then []
    else
      var last := requested[|requested| - 1];
      Options(requested[..|requested| - 1]) + (if last == "OPTIONS" then [last] else [])
  }

  // The allowed list and the cached list.
  function MethodLists(requested: seq<string>): (seq<string>, seq<string>) {
    if exists i :: 0 <= i < |requested| && IsWrite(requested[i]) then (ALL, WITH_OPTIONS)
    else (BASIC + Options(requested), BASIC + Options(requested))
  }

  method CalculateMethods(requested: seq<string>) returns (allowed: seq<string>, cached: seq<string>)
    ensures (allowed, cached) == MethodLists(requested)
  {
    var methods := BASIC;
    for i := 0 to |requested|
      invariant methods == BASIC + Options(requested[..i])
      invariant forall j :: 0 <= j < i ==> !IsWrite(requested[j])
    {
      assert requested[..i + 1][..i] == requested[..i];
      if requested[i] == "OPTIONS" {
        methods := methods + ["OPTIONS"];
      } else if IsWrite(requested[i]) {
        return ALL, WITH_OPTIONS;
      }
    }
    assert requested[..|requested|] == requested;
    return methods, methods;
  }

  function Elements(s: seq<string>): set<string> {
    set m | m in s
  }

  // The levels CloudFront supports, and what a request needs of one.
  ghost predicate IsLevel(level: set<string>) {
    level == Elements(BASIC) || level == Elements(WITH_OPTIONS) || level == Elements(ALL)
  }

  function Needed(requested: seq<string>): set<string> {
    {"HEAD", "GET"} + Elements(requested) * {"OPTIONS", "POST", "PUT", "DELETE"}
  }

  lemma {:induction false} OptionsElements(requested: seq<string>)
    ensures Elements(Options(requested)) == if "OPTIONS" in requested then {"OPTIONS"} else {}
    ensures forall m :: m in Options(requested) ==> m == "OPTIONS"
  {
    if requested == [] {
    } else {
      var init, last := requested[..|requested| - 1], requested[|requested| - 1];
      OptionsElements(init);
      assert requested == init + [last];
      assert forall m :: m in Options(requested) <==> m in Options(init) || (m == "OPTIONS" && last == "OPTIONS");
    }
  }

  lemma LevelElements()
    ensures Elements(BASIC) == {"HEAD", "GET"}
    ensures Elements(WITH_OPTIONS) == {"HEAD", "GET", "OPTIONS"}
    ensures Elements(ALL) == {"HEAD", "GET", "OPTIONS", "POST", "PUT", "DELETE"}
  {
  }

  lemma AllowedElements(requested: seq<string>)
    ensures var (allowed, cached) := MethodLists(requested);
      && Elements(allowed) == (if exists m :: m in requested && IsWrite(m) then Elements(ALL)
                               else if "OPTIONS" in requested then Elements(WITH_OPTIONS) else Elements(BASIC))
      && Elements(cached) == (if exists m :: m in requested && IsWrite(m) then Elements(WITH_OPTIONS)
                              else Elements(allowed))
  {
    OptionsElements(requested);
    LevelElements();
    var o := Options(requested);
    assert forall m :: m in BASIC + o <==> m in BASIC || m in o;
    assert forall m :: m in o <==> m in Elements(o);
    if i :| 0 <= i < |requested| && IsWrite(requested[i]) {
      assert requested[i] in requested;
    }
  }

  // As sets, the allowed methods are the least level that covers the request;
  // the cached ones are allowed, and agree with it on OPTIONS.
  lemma LeastLevel(requested: seq<string>)
    ensures var (a, c) := MethodLists(requested);
      && IsLevel(Elements(a)) && Needed(requested) <= Elements(a)
      && (forall level :: IsLevel(level) && Needed(requested) <= level ==> Elements(a) <= level)
      && Elements(c) <= Elements(a)
      && ("OPTIONS" in Elements(c) <==> "OPTIONS" in Elements(a))
      && Elements(c) !! {"POST", "PUT", "DELETE"}
  {
    AllowedElements(requested);
    LevelElements();
    var (a, c) := MethodLists(requested);
    if m :| m in requested && IsWrite(m) {
      assert m in Needed(requested);
    } else {
      forall n | n in Needed(requested) ensures n in Elements(a) {
        if n != "HEAD" && n != "GET" { assert n in requested && !IsWrite(n); }
      }
      if "OPTIONS" in requested { assert "OPTIONS" in Needed(requested); }
    }
  }

  // Order and repetition in the request do not matter, and asking for more
  // never allows less.
  lemma MonotoneInRequest(r: seq<string>, s: seq<string>)
    requires Elements(r) <= Elements(s)
    ensures Elements(MethodLists(r).0) <= Elements(MethodLists(s).0)
    ensures Elements(MethodLists(r).1) <= Elements(MethodLists(s).1)
  {
    AllowedElements(r);
    AllowedElements(s);
    LevelElements();
    forall m | m in r ensures m in s {
      assert m in Elements(r);
      assert m in Elements(s);
    }
  }

  predicate NoRepeats(s: seq<string>) {
    forall i, j :: 0 <= i < j < |s| ==> s[i] != s[j]
  }

  lemma {:induction false} OptionsCount(requested: seq<string>)
    ensures |Options(requested)| == multiset(requested)["OPTIONS"]
  {
    if requested == [] {
    } else {
      var init := requested[..|requested| - 1];
      assert requested == init + [requested[|requested| - 1]];
      OptionsCount(init);
    }
  }

  lemma BasicAndOptionsRepeat(o: seq<string>)
    requires forall m :: m in o ==> m == "OPTIONS"
    ensures NoRepeats(BASIC + o) <==> |o| <= 1
  {
    var l := BASIC + o;
    assert |l| == 2 + |o| && l[0] == "HEAD" && l[1] == "GET";
    assert forall k :: 0 <= k < |o| ==> o[k] in o && l[k + 2] == o[k];
    if |o| >= 2 { assert l[2] == l[3]; }
  }

  lemma AllHasNoRepeats()
    ensures NoRepeats(ALL)
  {
  }

  // As a list the result is not a level when OPTIONS is asked for twice and
  // no writing method is: the repetition is passed on.
  lemma RepeatsExactlyWhen(requested: seq<string>)
    ensures NoRepeats(MethodLists(requested).0) <==>
            multiset(requested)["OPTIONS"] <= 1 || exists i :: 0 <= i < |requested| && IsWrite(requested[i])
  {
    OptionsCount(requested);
    OptionsElements(requested);
    BasicAndOptionsRepeat(Options(requested));
    AllHasNoRepeats();
  }

  lemma CachedRepeatsNoMore(requested: seq<string>)
    ensures NoRepeats(MethodLists(requested).0) ==> NoRepeats(MethodLists(requested).1)
  {
    var w := WITH_OPTIONS;
    assert w[0] == "HEAD" && w[1] == "GET" && w[2] == "OPTIONS";
  }
}
