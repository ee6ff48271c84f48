/**
 * Route resolution for the web client: the closed catalog of URL templates,
 * the resolver that turns a route and an argument bag into a concrete path,
 * the per-route helpers built on it, and the parser that normalises the
 * textual parameters of a matched URL.
 *
 * Templates are `/`-separated; a segment that starts with `:` is a named
 * placeholder. Substitution works segment by segment over the template.
 */
module Routes {
  import opened Wrappers
  import opened Text

  /** The route catalog: one member per template. */
  datatype Route =
    | Home
    | LobbySearch
    | LobbyWait
    | LobbyMain
    | Board
    | UserLogin
    | LobbyInst
    | GameInst

  /** The template text of each route. */
  function Template(r: Route): string
  {
    match r
    case Home => "app/index"
    case LobbySearch => "app/LobbySearch"
    case LobbyWait => "app/LobbyWait"
    case LobbyMain => "app/Lobby"
    case Board => "app/board"
    case UserLogin => "app/UserLogin"
    case LobbyInst => "app/LobbyWait/:lobby"
    case GameInst => "app/board/:game"
  }

  /** The segments of each template, computed once: the route descriptor
      that resolution works on (`TemplateSegments` proves it is the split of
      the template text). */
  function Segments(r: Route): seq<string>
  {
    match r
    case Home => ["app", "index"]
    case LobbySearch => ["app", "LobbySearch"]
    case LobbyWait => ["app", "LobbyWait"]
    case LobbyMain => ["app", "Lobby"]
    case Board => ["app", "board"]
    case UserLogin => ["app", "UserLogin"]
    case LobbyInst => ["app", "LobbyWait", ":lobby"]
    case GameInst => ["app", "board", ":game"]
  }

  /** The parameter names each route requires, computed once. */
  function RequiredParams(r: Route): set<string>
  {
    match r
    case LobbyInst => {"lobby"}
    case GameInst => {"game"}
    case _ => {}
  }

  /** A value in an argument bag: the source's arguments are strings or numbers. */
  datatype ArgValue = Str(s: string) | Num(n: int)

  /** The only failure of resolution (`'no matching route'`). */
  datatype RouteError = NoMatchingRoute

  /** `'' + v`: the text a value contributes to a path. It is inserted
      as it is; `replace`'s expansion of `$` patterns is not modelled. */
  function Stringify(v: ArgValue): string
  {
    match v
    case Str(s) => s
    case Num(n) => IntToDecimal(n)
  }

  /** The segments of a template that are placeholders, in order. */
  function Placeholders(segs: seq<string>): seq<string>
  {
    if segs == [] then []
    else (if StartsWith(segs[0], ':') then [segs[0]] else []) + Placeholders(segs[1..])
  }

  /** A placeholder's name: the placeholder with its leading `:` removed
      (`p.replace(':', '')`, applied only to placeholders). */
  function Name(p: string): string
  {
    if StartsWith(p, ':') then p[1..] else p
  }

  /** How many placeholders have their name among `keys`. */
  function CountPresent(ps: seq<string>, keys: set<string>): nat
  {
    if ps == [] then 0
    else (if Name(ps[0]) in keys then 1 else 0) + CountPresent(ps[1..], keys)
  }

  /** The set of placeholder names of a template. */
  function NameSet(ps: seq<string>): set<string>
  {
    if ps == [] then {}
    else {Name(ps[0])} + NameSet(ps[1..])
  }

  /** No two placeholders of the template share a name. */
  predicate DistinctNames(ps: seq<string>)
  {
    forall i, j :: 0 <= i < j < |ps| ==> Name(ps[i]) != Name(ps[j])
  }

  /** The source's acceptance test for one candidate: as many keys as
      placeholders, and every placeholder name among the keys. */
  predicate Matches(ps: seq<string>, keys: set<string>)
  {
    |keys| == |ps| && CountPresent(ps, keys) >= |ps|
  }

  /** `Placeholders` keeps exactly the segments that start with `:`. */
  lemma {:induction false} PlaceholdersFilter(segs: seq<string>)
    ensures forall p :: p in Placeholders(segs) ==> p in segs && StartsWith(p, ':')
    ensures forall s :: s in segs && StartsWith(s, ':') ==> s in Placeholders(segs)
  {
    if segs != [] {
      PlaceholdersFilter(segs[1..]);
    }
  }

  /** The count reaches the number of placeholders exactly when every
      placeholder name is a key. */
  lemma {:induction false} CountPresentAll(ps: seq<string>, keys: set<string>)
    ensures CountPresent(ps, keys) <= |ps|
    ensures CountPresent(ps, keys) == |ps| <==> forall i :: 0 <= i < |ps| ==> Name(ps[i]) in keys
  {
    if ps != [] {
      CountPresentAll(ps[1..], keys);
      assert forall i :: 1 <= i < |ps| ==> ps[i] == ps[1..][i - 1];
    }
  }

  /** Every placeholder's name is in `NameSet`. */
  lemma {:induction false} NameSetHas(ps: seq<string>)
    ensures forall i :: 0 <= i < |ps| ==> Name(ps[i]) in NameSet(ps)
  {
    if ps != [] {
      NameSetHas(ps[1..]);
      assert forall i :: 1 <= i < |ps| ==> ps[i] == ps[1..][i - 1];
    }
  }

  /** True when the argument keys satisfy route `r` exactly. */
  predicate RouteMatches(r: Route, keys: set<string>)
  {
    Matches(Placeholders(Segments(r)), keys)
  }

  /** The first index of `x` in `s`, or `|s|` when it does not occur. */
  function FirstIndex(s: seq<string>, x: string): (i: nat)
    ensures i <= |s|
    ensures i < |s| ==> s[i] == x
    ensures forall j :: 0 <= j < i ==> s[j] != x
  {
    if s == [] then 0
    else if s[0] == x then 0
    else 1 + FirstIndex(s[1..], x)
  }

  /** Segment `i` once the keys in `done` have been substituted: a key `k`
      replaces the first segment equal to `:k`, as `String.replace` replaces
      the first occurrence. */
  function SubstAt(segs: seq<string>, arg: map<string, ArgValue>, done: set<string>, i: nat): string
    requires i < |segs|
    requires done <= arg.Keys
  {
    var s := segs[i];
    if StartsWith(s, ':') && Name(s) in done && FirstIndex(segs, s) == i
    then Stringify(arg[Name(s)])
    else s
  }

  /** The template's segments with every key of `arg` substituted. */
  function Substitute(segs: seq<string>, arg: map<string, ArgValue>): seq<string>
  {
    seq(|segs|, i requires 0 <= i < |segs| => SubstAt(segs, arg, arg.Keys, i))
  }

  /** The path built for a matched candidate: `'/'` before the substituted template. */
  function Build(r: Route, arg: map<string, ArgValue>): string
  {
    "/" + Join(Substitute(Segments(r), arg), '/')
  }

  /** Resolution over a candidate list: the first candidate that matches
      wins; none matching is `NoMatchingRoute`. */
  function Resolve(cands: seq<Route>, arg: map<string, ArgValue>): Result<string, RouteError>
  {
    if cands == [] then Err(NoMatchingRoute)
    else if RouteMatches(cands[0], arg.Keys) then Ok(Build(cands[0], arg))
    else Resolve(cands[1..], arg)
  }

  /** The substitution loop: each key of the bag rewrites its placeholder. */
  method SubstituteKeys(segs: seq<string>, arg: map<string, ArgValue>) returns (path: seq<string>)
    ensures path == Substitute(segs, arg)
  {
    path := segs;
    var todo := arg.Keys;
    while todo != {}
      invariant todo <= arg.Keys
      invariant |path| == |segs|
      invariant forall i :: 0 <= i < |segs| ==> path[i] == SubstAt(segs, arg, arg.Keys - todo, i)
      decreases todo
    {
      var k :| k in todo;
      var j := FirstIndex(segs, ":" + k);
      if j < |segs| {
        assert Name(segs[j]) == k;
        path := path[j := Stringify(arg[k])];
      }
      todo := todo - {k};
    }
  }

  /** The resolver loop over the candidate list, with its `continue` on a
      candidate whose parameters do not match the keys exactly. */
  method ResolveAmong(routes: seq<Route>, arg: map<string, ArgValue>) returns (r: Result<string, RouteError>)
    ensures r == Resolve(routes, arg)
  {
    for n := 0 to |routes|
      invariant Resolve(routes, arg) == Resolve(routes[n..], arg)
    {
      assert routes[n..][1..] == routes[n + 1..];
      var route := routes[n];
      TemplateSegments(route);
      var params := Placeholders(Split(Template(route), '/'));
      var keys := arg.Keys;
      var paramMatches := CountPresent(params, keys);
      if |keys| != |params| || paramMatches < |params| {
        continue;
      }
      var path := SubstituteKeys(Split(Template(route), '/'), arg);
      return Ok("/" + Join(path, '/'));
    }
    return Err(NoMatchingRoute);
  }

  /** `getPath(route, arg)`: the candidate list holds `route` alone. An
      omitted argument bag behaves as the empty map. */
  method GetPath(route: Route, arg: map<string, ArgValue>) returns (r: Result<string, RouteError>)
    ensures r == Resolve([route], arg)
  {
    r := ResolveAmong([route], arg);
  }

  // ---------------------------------------------------------------------
  // Exact-set matching

  /** Distinct placeholder names give as many names as placeholders. */
  lemma {:induction false} NameSetSize(ps: seq<string>)
    requires DistinctNames(ps)
    ensures |NameSet(ps)| == |ps|
  {
    if ps != [] {
      var tail := ps[1..];
      NameSetSize(tail);
      if Name(ps[0]) in NameSet(tail) {
        var k := NameIndex(tail, Name(ps[0]));
      }
    }
  }

  /** Every member of `NameSet(ps)` is the name of some placeholder. */
  lemma {:induction false} NameIndex(ps: seq<string>, k: string) returns (i: nat)
    requires k in NameSet(ps)
    ensures i < |ps| && Name(ps[i]) == k
  {
    if Name(ps[0]) == k {
      i := 0;
    } else {
      var j := NameIndex(ps[1..], k);
      i := j + 1;
    }
  }

  /** A subset as large as its superset is the whole superset. */
  lemma SubsetOfSameSize(a: set<string>, b: set<string>)
    requires a <= b && |a| == |b|
    ensures a == b
  {
    assert a * b == a;
    assert |b - a| == 0;
  }

  /** When every placeholder name is a key, all names are keys. */
  lemma NamesWithin(ps: seq<string>, keys: set<string>)
    requires forall i :: 0 <= i < |ps| ==> Name(ps[i]) in keys
    ensures NameSet(ps) <= keys
  {
    forall k | k in NameSet(ps) ensures k in keys {
      var i := NameIndex(ps, k);
    }
  }

  /** The acceptance test spelled out: as many keys as placeholders and
      every placeholder name present. */
  lemma MatchesMeans(ps: seq<string>, keys: set<string>)
    ensures Matches(ps, keys) <==>
      |keys| == |ps| && forall i :: 0 <= i < |ps| ==> Name(ps[i]) in keys
  {
    CountPresentAll(ps, keys);
  }

  /** With distinct placeholder names the test is set equality: a missing
      key and an extra key both fail. */
  lemma MatchesIsExactSet(ps: seq<string>, keys: set<string>)
    requires DistinctNames(ps)
    ensures Matches(ps, keys) <==> keys == NameSet(ps)
  {
    NameSetSize(ps);
    NameSetHas(ps);
    MatchesMeans(ps, keys);
    if Matches(ps, keys) {
      NamesWithin(ps, keys);
      SubsetOfSameSize(NameSet(ps), keys);
    }
  }

  // ---------------------------------------------------------------------
  // The catalog

  /** Each placeholder segment occurs only once in the template. */
  predicate PlaceholdersUnique(segs: seq<string>)
  {
    forall i, j :: 0 <= i < j < |segs| && StartsWith(segs[i], ':') ==> segs[i] != segs[j]
  }

  /** Each template is its written-out segments joined with `/`. */
  lemma TemplateText(r: Route)
    ensures Template(r) == Join(Segments(r), '/')
  {
    if r == LobbyInst || r == GameInst {
      TemplateTextWithPlaceholder(r);
    } else {
      TemplateTextLiteral(r);
    }
  }

  /** `TemplateText` for the two routes with a placeholder. */
  lemma TemplateTextWithPlaceholder(r: Route)
    requires r == LobbyInst || r == GameInst
    ensures Template(r) == Join(Segments(r), '/')
  {
    if r == LobbyInst {
      JoinThree("app", "LobbyWait", ":lobby", '/');
    } else {
      JoinThree("app", "board", ":game", '/');
    }
  }

  /** `TemplateText` for the routes without a placeholder. */
  lemma TemplateTextLiteral(r: Route)
    requires r != LobbyInst && r != GameInst
    ensures Template(r) == Join(Segments(r), '/')
  {
    match r
    case Home => JoinTwo("app", "index", '/');
    case LobbySearch => JoinTwo("app", "LobbySearch", '/');
    case LobbyWait => JoinTwo("app", "LobbyWait", '/');
    case LobbyMain => JoinTwo("app", "Lobby", '/');
    case Board => JoinTwo("app", "board", '/');
    case UserLogin => JoinTwo("app", "UserLogin", '/');
  }

  /** Splitting each template on `/` gives its written-out segments. */
  lemma TemplateSegments(r: Route)
    ensures Split(Template(r), '/') == Segments(r)
  {
    var segs := Segments(r);
    TemplateText(r);
    assert forall i :: 0 <= i < |segs| ==> '/' !in segs[i];
    SplitJoin(segs, '/');
  }

  /** The placeholders of each template occur once, have distinct names,
      and their names are exactly `RequiredParams`. */
  lemma CatalogShape(r: Route)
    ensures PlaceholdersUnique(Segments(r))
    ensures DistinctNames(Placeholders(Segments(r)))
    ensures NameSet(Placeholders(Segments(r))) == RequiredParams(r)
  {
    if r == LobbyInst || r == GameInst {
      ParamRouteShape(r);
    } else {
      LiteralRouteShape(r);
    }
  }

  /** `CatalogShape` for the two routes with a placeholder. */
  lemma ParamRouteShape(r: Route)
    requires r == LobbyInst || r == GameInst
    ensures PlaceholdersUnique(Segments(r))
    ensures DistinctNames(Placeholders(Segments(r)))
    ensures NameSet(Placeholders(Segments(r))) == RequiredParams(r)
  {
    PlaceholderOfParamRoute(r);
    var p := Segments(r)[2];
    assert NameSet([p]) == {Name(p)} by {
      assert [p][1..] == [];
    }
    assert Name(":lobby") == "lobby" && Name(":game") == "game";
  }

  /** `CatalogShape` for the routes without a placeholder. */
  lemma LiteralRouteShape(r: Route)
    requires r != LobbyInst && r != GameInst
    ensures PlaceholdersUnique(Segments(r))
    ensures Placeholders(Segments(r)) == []
    ensures RequiredParams(r) == {}
  {
    var segs := Segments(r);
    assert forall i :: 0 <= i < |segs| ==> !StartsWith(segs[i], ':');
    NoPlaceholders(segs);
  }

  /** The one placeholder of `Lobby_Inst` and `Game_Inst` is their last segment. */
  lemma PlaceholderOfParamRoute(r: Route)
    requires r == LobbyInst || r == GameInst
    ensures Placeholders(Segments(r)) == [Segments(r)[2]]
  {
    var segs := Segments(r);
    var p := segs[2];
    var t1 := segs[1..];
    var t2 := t1[1..];
    assert t2 == [p] && t2[1..] == [];
    assert StartsWith(p, ':');
    assert Placeholders(t2) == [p];
    assert !StartsWith(t1[0], ':');
    assert Placeholders(t1) == [p];
    assert !StartsWith(segs[0], ':');
  }

  /** A template with no `:` segment has no placeholders. */
  lemma NoPlaceholders(segs: seq<string>)
    requires forall i :: 0 <= i < |segs| ==> !StartsWith(segs[i], ':')
    ensures Placeholders(segs) == []
  {
  }

  /** Resolving a catalog route succeeds exactly when the supplied keys are
      the route's parameter names, neither fewer nor more. */
  lemma ResolveExact(r: Route, arg: map<string, ArgValue>)
    ensures Resolve([r], arg).Ok? <==> arg.Keys == RequiredParams(r)
    ensures Resolve([r], arg).Err? ==> Resolve([r], arg).error == NoMatchingRoute
  {
    CatalogShape(r);
    MatchesIsExactSet(Placeholders(Segments(r)), arg.Keys);
  }

  /** With exactly the required keys, resolution returns the built path. */
  lemma ResolveMatched(r: Route, arg: map<string, ArgValue>)
    requires arg.Keys == RequiredParams(r)
    ensures Resolve([r], arg) == Ok(Build(r, arg))
  {
    ResolveExact(r, arg);
  }

  // ---------------------------------------------------------------------
  // Substitution

  /** When each placeholder occurs once, every placeholder whose name is a
      key becomes that key's text, and every other segment is unchanged. */
  lemma SubstituteSegmentwise(segs: seq<string>, arg: map<string, ArgValue>)
    requires PlaceholdersUnique(segs)
    ensures forall i :: 0 <= i < |segs| ==>
      Substitute(segs, arg)[i] ==
        if StartsWith(segs[i], ':') && Name(segs[i]) in arg
        then Stringify(arg[Name(segs[i])])
        else segs[i]
  {
    forall i | 0 <= i < |segs| && StartsWith(segs[i], ':')
      ensures FirstIndex(segs, segs[i]) == i
    {
    }
  }

  /** When the keys are exactly the placeholder names, substitution leaves
      no placeholder behind: each becomes the text of its argument. */
  lemma SubstituteAll(segs: seq<string>, arg: map<string, ArgValue>)
    requires PlaceholdersUnique(segs)
    requires arg.Keys == NameSet(Placeholders(segs))
    ensures forall i :: 0 <= i < |segs| && StartsWith(segs[i], ':') ==> Name(segs[i]) in arg
    ensures forall i :: 0 <= i < |segs| ==>
      Substitute(segs, arg)[i] ==
        if StartsWith(segs[i], ':') then Stringify(arg[Name(segs[i])]) else segs[i]
  {
    SubstituteSegmentwise(segs, arg);
    var ps := Placeholders(segs);
    PlaceholdersFilter(segs);
    NameSetHas(ps);
    forall i | 0 <= i < |segs| && StartsWith(segs[i], ':') ensures Name(segs[i]) in arg {
      assert segs[i] in ps;
      var j :| 0 <= j < |ps| && ps[j] == segs[i];
    }
  }

  /** On success a catalog route yields `'/'` followed by its segments
      joined, each placeholder replaced by the text of its argument and
      each literal segment kept. */
  lemma ResolveSubstitutes(r: Route, arg: map<string, ArgValue>)
    requires arg.Keys == RequiredParams(r)
    ensures Resolve([r], arg).Ok?
    ensures forall i :: 0 <= i < |Segments(r)| && StartsWith(Segments(r)[i], ':') ==>
      Name(Segments(r)[i]) in arg
    ensures var segs := Segments(r); var out := Substitute(segs, arg);
      && Resolve([r], arg).value == "/" + Join(out, '/')
      && |out| == |segs|
      && forall i :: 0 <= i < |out| ==>
           out[i] == if StartsWith(segs[i], ':') then Stringify(arg[Name(segs[i])]) else segs[i]
  {
    ResolveExact(r, arg);
    CatalogShape(r);
    SubstituteAll(Segments(r), arg);
  }

  /** Every template starts with the literal segment `app`. */
  lemma FirstSegmentIsApp(r: Route)
    ensures Segments(r)[0] == "app"
  {
  }

  /** Every path resolved from the catalog starts with exactly one `/`. */
  lemma ResolveLeadingSlash(r: Route, arg: map<string, ArgValue>)
    requires Resolve([r], arg).Ok?
    ensures var p := Resolve([r], arg).value;
      |p| >= 2 && p[0] == '/' && p[1] != '/'
  {
    ResolveExact(r, arg);
    ResolveSubstitutes(r, arg);
    FirstSegmentIsApp(r);
    var out := Substitute(Segments(r), arg);
    assert out[0] == "app";
    JoinPrefix(out, '/');
  }

  /** A template without placeholders resolves, with no arguments, to its
      own text after a `/`; with any argument it fails. */
  lemma LiteralRoute(r: Route, arg: map<string, ArgValue>)
    requires RequiredParams(r) == {}
    ensures Resolve([r], map[]) == Ok("/" + Template(r))
    ensures arg != map[] ==> Resolve([r], arg) == Err(NoMatchingRoute)
  {
    ResolveExact(r, map[]);
    ResolveExact(r, arg);
    CatalogShape(r);
    TemplateSegments(r);
    Text.JoinSplit(Template(r), '/');
    var segs := Segments(r);
    assert Substitute(segs, map[]) == segs;
    if arg != map[] {
      var k :| k in arg;
      assert arg.Keys != {};
    }
  }

  /** Substituting the placeholder of a three-segment template whose first
      two segments are literal. */
  lemma SubstituteLast(a: string, b: string, p: string, v: ArgValue)
    requires !StartsWith(a, ':') && !StartsWith(b, ':') && StartsWith(p, ':')
    ensures Substitute([a, b, p], map[Name(p) := v]) == [a, b, Stringify(v)]
  {
    var segs := [a, b, p];
    assert a != p && b != p;
    assert segs[1..] == [b, p] && segs[1..][1..] == [p];
    assert FirstIndex([p], p) == 0;
    assert FirstIndex([b, p], p) == 1;
  }

  /** The path built for `Lobby_Inst` with `{lobby: v}`. */
  lemma LobbyInstBuild(v: ArgValue)
    ensures Build(LobbyInst, map["lobby" := v]) == "/" + Join(["app", "LobbyWait", Stringify(v)], '/')
  {
    assert Name(":lobby") == "lobby";
    SubstituteLast("app", "LobbyWait", ":lobby", v);
  }

  /** The path built for `Game_Inst` with `{game: v}`. */
  lemma GameInstBuild(v: ArgValue)
    ensures Build(GameInst, map["game" := v]) == "/" + Join(["app", "board", Stringify(v)], '/')
  {
    assert Name(":game") == "game";
    SubstituteLast("app", "board", ":game", v);
  }

  // ---------------------------------------------------------------------
  // Several candidates

  /** Resolution returns the path of the first matching candidate, skipping
      the ones before it; it fails exactly when none matches. */
  lemma {:induction false} ResolveFirstMatch(cands: seq<Route>, arg: map<string, ArgValue>)
    ensures Resolve(cands, arg).Err? <==>
      forall i :: 0 <= i < |cands| ==> !RouteMatches(cands[i], arg.Keys)
    ensures Resolve(cands, arg).Ok? ==>
      exists i :: 0 <= i < |cands| && RouteMatches(cands[i], arg.Keys)
        && (forall j :: 0 <= j < i ==> !RouteMatches(cands[j], arg.Keys))
        && Resolve(cands, arg).value == Build(cands[i], arg)
  {
    if cands != [] {
      var tail := cands[1..];
      ResolveFirstMatch(tail, arg);
      if !RouteMatches(cands[0], arg.Keys) {
        if Resolve(tail, arg).Ok? {
          var i :| 0 <= i < |tail| && RouteMatches(tail[i], arg.Keys)
            && (forall j :: 0 <= j < i ==> !RouteMatches(tail[j], arg.Keys))
            && Resolve(tail, arg).value == Build(tail[i], arg);
          assert cands[i + 1] == tail[i];
          forall j | 0 <= j < i + 1 ensures !RouteMatches(cands[j], arg.Keys) {
            if j > 0 { assert cands[j] == tail[j - 1]; }
          }
        }
        assert forall i :: 0 <= i < |tail| ==> tail[i] == cands[i + 1];
      }
    }
  }

  // ---------------------------------------------------------------------
  // Route helpers

  /** True when an optional number is JavaScript-truthy (present, not 0). */
  predicate TruthyNumber(n: Option<int>)
  {
    n.Some? && n.value != 0
  }

  /** The optional `?lobbyId=<id>` suffix, present only for a truthy id. */
  function LobbyQuery(lobbyId: Option<int>): (q: string)
    ensures q == "" <==> !TruthyNumber(lobbyId)
    ensures '?' in q <==> TruthyNumber(lobbyId)
  {
    if TruthyNumber(lobbyId) then "?lobbyId=" + IntToDecimal(lobbyId.value) else ""
  }

  /** A three-segment path written out segment by segment. */
  lemma ThreeSegmentPath(a: string, b: string, c: string)
    ensures "/" + Join([a, b, c], '/') == "/" + a + "/" + b + "/" + c
  {
    JoinThree(a, b, c, '/');
    assert ['/'] + (a + ['/'] + b + ['/'] + c) == (['/'] + a + ['/'] + b + ['/']) + c;
  }

  /** `Lobby_Inst` resolves, for any value of `lobby`, to `/app/LobbyWait/<value>`. */
  lemma LobbyInstResolve(v: ArgValue)
    ensures Resolve([LobbyInst], map["lobby" := v]) == Ok("/app/LobbyWait/" + Stringify(v))
  {
    ResolveMatched(LobbyInst, map["lobby" := v]);
    LobbyInstBuild(v);
    ThreeSegmentPath("app", "LobbyWait", Stringify(v));
    LobbyWaitPrefix();
  }

  /** The literal path text before the `lobby` value: `/app/LobbyWait/`. */
  lemma LobbyWaitPrefix()
    ensures "/" + "app" + "/" + "LobbyWait" + "/" == "/app/LobbyWait/"
  {
  }

  /** `Game_Inst` resolves, for any value of `game`, to `/app/board/<value>`. */
  lemma GameInstResolve(v: ArgValue)
    ensures Resolve([GameInst], map["game" := v]) == Ok("/app/board/" + Stringify(v))
  {
    ResolveMatched(GameInst, map["game" := v]);
    GameInstBuild(v);
    ThreeSegmentPath("app", "board", Stringify(v));
    BoardPrefix();
  }

  /** The literal path text before the `game` value: `/app/board/`. */
  lemma BoardPrefix()
    ensures "/" + "app" + "/" + "board" + "/" == "/app/board/"
  {
  }

  /** `getPath(Route.Game_Inst, {game: 42})` is `/app/board/42`. */
  lemma GameInstExample()
    ensures Resolve([GameInst], map["game" := Num(42)]) == Ok("/app/board/42")
  {
    GameInstResolve(Num(42));
    Stringify42();
  }

  /** The path text of `Game_Inst` with the number 42: `/app/board/42`. */
  lemma Stringify42()
    ensures "/app/board/" + Stringify(Num(42)) == "/app/board/42"
  {
    assert IntToDecimal(42) == "42";
  }

  /** The shape `getLobbyPath` and `getGamePath` share: a one-parameter
      route filled with the parameter's own name, then the lobby query. */
  function QueriedPath(r: Route, name: string, lobbyId: Option<int>): Result<string, RouteError>
  {
    match Resolve([r], map[name := Str(name)])
    case Ok(path) => Ok(path + LobbyQuery(lobbyId))
    case Err(e) => Err(e)
  }

  /** `Lobby_Inst` filled with the text `lobby`, then the query. */
  lemma LobbyQueriedPath(lobbyId: Option<int>)
    ensures QueriedPath(LobbyInst, "lobby", lobbyId) == Ok("/app/LobbyWait/lobby" + LobbyQuery(lobbyId))
  {
    LobbyInstResolve(Str("lobby"));
    LobbyBaseText();
  }

  /** The path text of `Lobby_Inst` with the text `lobby`: `/app/LobbyWait/lobby`. */
  lemma LobbyBaseText()
    ensures "/app/LobbyWait/" + Stringify(Str("lobby")) == "/app/LobbyWait/lobby"
  {
  }

  /** `Game_Inst` filled with the text `game`, then the query. */
  lemma GameQueriedPath(lobbyId: Option<int>)
    ensures QueriedPath(GameInst, "game", lobbyId) == Ok("/app/board/game" + LobbyQuery(lobbyId))
  {
    GameInstResolve(Str("game"));
    GameBaseText();
  }

  /** The path text of `Game_Inst` with the text `game`: `/app/board/game`. */
  lemma GameBaseText()
    ensures "/app/board/" + Stringify(Str("game")) == "/app/board/game"
  {
  }

  /** `getLobbyPath(lobbyId)`. */
  function LobbyPath(lobbyId: Option<int>): (r: Result<string, RouteError>)
    ensures r == Ok("/app/LobbyWait/lobby" + LobbyQuery(lobbyId))
    ensures '?' in r.value <==> TruthyNumber(lobbyId)
  {
    LobbyQueriedPath(lobbyId);
    NoQueryMark("/app/LobbyWait/lobby");
    QueriedPath(LobbyInst, "lobby", lobbyId)
  }

  /** `getGamePath(lobbyId)`. */
  function GamePath(lobbyId: Option<int>): (r: Result<string, RouteError>)
    ensures r == Ok("/app/board/game" + LobbyQuery(lobbyId))
    ensures '?' in r.value <==> TruthyNumber(lobbyId)
  {
    GameQueriedPath(lobbyId);
    NoQueryMark("/app/board/game");
    QueriedPath(GameInst, "game", lobbyId)
  }

  /** A path without `?` carries a query mark after the suffix exactly when
      the suffix does. */
  lemma NoQueryMark(path: string)
    requires path == "/app/LobbyWait/lobby" || path == "/app/board/game"
    ensures forall q: string {:trigger path + q} :: '?' in path + q <==> '?' in q
  {
    assert '?' !in path;
    forall q: string
      ensures '?' in path + q <==> '?' in q
    {
      if '?' in path + q {
        var i :| 0 <= i < |path + q| && (path + q)[i] == '?';
        assert i >= |path|;
        assert q[i - |path|] == '?';
      }
      if '?' in q {
        var i :| 0 <= i < |q| && q[i] == '?';
        assert (path + q)[|path| + i] == '?';
      }
    }
  }

  /** `getLobbyMainPath()`. */
  function LobbyMainPath(): (r: Result<string, RouteError>)
    ensures r == Ok("/" + Template(LobbyMain))
  {
    LiteralRoute(LobbyMain, map[]);
    Resolve([LobbyMain], map[])
  }

  /** `getLobbySearchPath()`. */
  function LobbySearchPath(): (r: Result<string, RouteError>)
    ensures r == Ok("/" + Template(LobbySearch))
  {
    LiteralRoute(LobbySearch, map[]);
    Resolve([LobbySearch], map[])
  }

  /** `getLobbyWaitPath()`. */
  function LobbyWaitPath(): (r: Result<string, RouteError>)
    ensures r == Ok("/" + Template(LobbyWait))
  {
    LiteralRoute(LobbyWait, map[]);
    Resolve([LobbyWait], map[])
  }

  /** `getBoardPath()`. */
  function BoardPath(): (r: Result<string, RouteError>)
    ensures r == Ok("/" + Template(Board))
  {
    LiteralRoute(Board, map[]);
    Resolve([Board], map[])
  }

  /** `getUserLoginPath()`. */
  function UserLoginPath(): (r: Result<string, RouteError>)
    ensures r == Ok("/" + Template(UserLogin))
  {
    LiteralRoute(UserLogin, map[]);
    Resolve([UserLogin], map[])
  }

  /** The literal helpers' paths written out: `getLobbyMainPath()` is `/app/Lobby`. */
  lemma LiteralHelperPaths()
    ensures LobbyMainPath() == Ok("/app/Lobby")
    ensures LobbySearchPath() == Ok("/app/LobbySearch")
    ensures LobbyWaitPath() == Ok("/app/LobbyWait")
    ensures BoardPath() == Ok("/app/board")
    ensures UserLoginPath() == Ok("/app/UserLogin")
  {
    assert "/" + Template(LobbyMain) == "/app/Lobby";
    assert "/" + Template(LobbySearch) == "/app/LobbySearch";
    assert "/" + Template(LobbyWait) == "/app/LobbyWait";
    assert "/" + Template(Board) == "/app/board";
    assert "/" + Template(UserLogin) == "/app/UserLogin";
  }

  /** `getLobbyPath(5)` appends the query; no id and id 0 do not. */
  lemma LobbyPathExamples()
    ensures LobbyPath(Some(5)) == Ok("/app/LobbyWait/lobby?lobbyId=5")
    ensures LobbyPath(None) == LobbyPath(Some(0)) == Ok("/app/LobbyWait/lobby")
  {
    LobbyQueryFive();
    assert LobbyQuery(None) == "" && LobbyQuery(Some(0)) == "";
    assert "/app/LobbyWait/lobby" + "" == "/app/LobbyWait/lobby";
  }

  /** The path text of `getLobbyPath(5)`: `/app/LobbyWait/lobby?lobbyId=5`. */
  lemma LobbyQueryFive()
    ensures "/app/LobbyWait/lobby" + LobbyQuery(Some(5)) == "/app/LobbyWait/lobby?lobbyId=5"
  {
    assert IntToDecimal(5) == "5";
    assert LobbyQuery(Some(5)) == "?lobbyId=5";
  }

  // ---------------------------------------------------------------------
  // Parameter parsing

  /** Raw parameters of a matched URL; every one may be absent. */
  datatype AppRouteParams = AppRouteParams(userId: Option<string>, lobby: Option<string>, game: Option<string>)

  /** Normalised parameters. `userId` is `None` where JavaScript's `Number`
      would be applied to text that is not a run of decimal digits (NaN,
      hexadecimal, fractions, padding): those conversions are not modelled. */
  datatype NormalizedParams = NormalizedParams(userId: Option<nat>, lobby: string, game: string)

  /** True when an optional string is JavaScript-truthy (present, not empty). */
  predicate TruthyText(s: Option<string>)
  {
    s.Some? && s.value != ""
  }

  /** `Number(s)` on the texts this model covers. */
  function ToNumber(s: string): (n: Option<nat>)
    ensures IsDigits(s) ==> n == Some(DecimalValue(s))
  {
    if IsDigits(s) then Some(DecimalValue(s)) else None
  }

  /** `routeParams(params)`: total, defaulting `userId` to 0 and `lobby`
      and `game` to the empty string. */
  function RouteParams(params: AppRouteParams): (r: NormalizedParams)
    ensures !TruthyText(params.userId) ==> r.userId == Some(0)
    ensures TruthyText(params.userId) && IsDigits(params.userId.value) ==>
      r.userId == Some(DecimalValue(params.userId.value))
    ensures !TruthyText(params.lobby) ==> r.lobby == ""
    ensures TruthyText(params.lobby) ==> r.lobby == params.lobby.value
    ensures !TruthyText(params.game) ==> r.game == ""
    ensures TruthyText(params.game) ==> r.game == params.game.value
  {
    NormalizedParams(
      if TruthyText(params.userId) then ToNumber(params.userId.value) else Some(0),
      if TruthyText(params.lobby) then params.lobby.value else "",
      if TruthyText(params.game) then params.game.value else "")
  }

  /** `routeParams({})` and `routeParams({userId: "7", lobby: "abc"})`. */
  lemma RouteParamsExamples()
    ensures RouteParams(AppRouteParams(None, None, None)) == NormalizedParams(Some(0), "", "")
    ensures RouteParams(AppRouteParams(Some("7"), Some("abc"), None)) == NormalizedParams(Some(7), "abc", "")
  {
    assert IsDigits("7");
    assert DecimalValue("7") == 7 by {
      assert "7"[..0] == "";
    }
  }

  /** Parsing the text form of normalised parameters gives them back. */
  lemma RouteParamsRoundTrip(userId: nat, lobby: string, game: string)
    ensures RouteParams(AppRouteParams(Some(NatToDecimal(userId)), Some(lobby), Some(game)))
      == NormalizedParams(Some(userId), lobby, game)
  {
    DecimalRoundTrip(userId);
  }
}
