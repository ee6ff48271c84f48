# Client navigation and move encoding of a lobby-based word game

This project models two parts of the web client of a multiplayer tile game
(a Scrabble-like word game played in lobbies) and proves properties of them.

- **Route resolution** (`routes.dfy`, module `Routes`; string helpers in
  `text.dfy`, module `Text`). The client has a closed catalog of eight URL
  templates such as `app/LobbyWait/:lobby`. A segment that starts with `:`
  is a named placeholder. `getPath` takes a route and an argument bag. It
  accepts the route only when the bag's keys are exactly the template's
  placeholder names, neither fewer nor more. It then replaces each
  placeholder with the text of its argument and puts a `/` in front;
  otherwise it fails with `no matching route`. The model inserts argument
  text literally. The source's `String.replace` gives `$` a special
  meaning in that text, so the two agree only for argument text without
  `$` (see "Left out"). The model also covers the
  helpers built on `getPath`, including `getLobbyPath` and `getGamePath`
  with their optional `?lobbyId=` query. It also covers `routeParams`,
  which normalises the textual parameters of a matched URL.
- **Move encoding** (`game_mutations.dfy`, module `GameMutations`). There
  are four move variants: submit, scramble, select tile and deselect tile.
  Each is turned into the one `MoveInput` record sent to the server. The
  player's lobby becomes a lobby id, or `-1` when the player has none. The
  tile list is mapped one to one, with the per-tile `value` renamed
  `pointValue`. The move-level score is passed through for a submit and is
  `0` for the other variants.

`Option` and `Result` are in `wrappers.dfy`.

Resolution is modelled twice:

- Functions give the specification. `Resolve` does the first-match search
  over candidates, `Build` builds the path, and `Substitute` substitutes
  segment by segment.
- Methods follow the source's imperative shape, and each is proved equal
  to its function:
  - `ResolveAmong` is the `for` loop over candidates, with its `continue`;
  - `SubstituteKeys` is the loop over the bag's keys that rewrites the
    path;
  - `GetPath` is `getPath` itself.

A template is represented by its segments. `TemplateSegments` proves that
this segment list (`Segments`) is exactly the template text split at `/`.

- **Argument bags.** A bag is a `map<string, ArgValue>`, where a value is a
  string or an integer. An omitted bag is the empty map.
- **Text of values.** `'' + value` becomes `Stringify`: integers are
  written in decimal with a leading `-` when negative.
- **`Number()` in `routeParams`.** It is modelled only on runs of decimal
  digits. For a non-numeric `userId` the code gives `NaN`, not `0`. The
  model says nothing about that value (`None`) rather than claim `0`.

## Model

| member | source | states |
|---|---|---|
| Routes.TemplateSegments | web/src/view/nav/route.ts:7-16 | splitting each catalog template at `/` gives exactly its segment list, so resolution on segments is resolution on the enum's text |
| Routes.CatalogShape | web/src/view/nav/route.ts:7-16 | in every template each placeholder occurs once, placeholder names are distinct, and the names are exactly `{lobby}` for `Lobby_Inst`, `{game}` for `Game_Inst`, none otherwise |
| Routes.FirstSegmentIsApp | web/src/view/nav/route.ts:8-15 | every template starts with the literal segment `app` |
| Routes.PlaceholdersFilter | web/src/view/nav/route.ts:56 | the extracted parameters are exactly the template segments that start with `:` |
| Routes.CountPresentAll | web/src/view/nav/route.ts:58 | the number of placeholders whose name is a key is at most the number of placeholders, and equals it iff every placeholder name is a key |
| Routes.MatchesMeans | web/src/view/nav/route.ts:56-60 | a candidate passes the guard iff there are as many keys as placeholders and every placeholder name (with `:` stripped) is a key |
| Routes.MatchesIsExactSet | web/src/view/nav/route.ts:56-60 | with distinct placeholder names, the guard passes iff the key set equals the set of placeholder names, so a missing key and an extra key both fail |
| Routes.FirstIndex | web/src/view/nav/route.ts:66 | the index found holds the sought segment and no earlier segment does; the length is returned when it is absent (the first occurrence that `replace` rewrites) |
| Routes.SubstituteKeys | web/src/view/nav/route.ts:64-67 | the loop over the bag's keys, in any order, rewrites the path to `Substitute(segs, arg)` |
| Routes.SubstituteSegmentwise | web/src/view/nav/route.ts:64-67 | when placeholders occur once, a placeholder whose name is a key becomes that argument's text and every other segment is unchanged |
| Routes.SubstituteAll | web/src/view/nav/route.ts:64-67 | when the keys are exactly the placeholder names, every placeholder is replaced by its argument's text and no placeholder is left |
| Routes.ResolveAmong | web/src/view/nav/route.ts:53-71 | the candidate loop with `continue` returns what the first-match specification `Resolve` returns, including `NoMatchingRoute` when no candidate matches |
| Routes.GetPath | web/src/view/nav/route.ts:52-72 | `getPath(route, arg)` is resolution over the one-element candidate list `[route]` |
| Routes.ResolveFirstMatch | web/src/view/nav/route.ts:53-61 | over several candidates, resolution fails iff no candidate matches; on success it returns the path built for some matching candidate before which none matches |
| Routes.ResolveExact | web/src/view/nav/route.ts:56-71 | a catalog route resolves iff the bag's keys are exactly its required parameter names; the only failure is `NoMatchingRoute` |
| Routes.ResolveMatched | web/src/view/nav/route.ts:63-68 | with exactly the required keys, resolution returns the path built by substitution |
| Routes.ResolveSubstitutes | web/src/view/nav/route.ts:63-68 | on success the result is `/` followed by the template's segments joined with `/`, each placeholder replaced by its argument's text and each literal segment kept (the source agrees for argument text without `$`) |
| Routes.ResolveLeadingSlash | web/src/view/nav/route.ts:68 | every successful result starts with exactly one `/` and no second one |
| Routes.LiteralRoute | web/src/view/nav/route.ts:56-68 | a template without placeholders resolves with no argument to `/` followed by its text unchanged, and fails with any non-empty bag |
| Routes.LobbyInstResolve | web/src/view/nav/route.ts:64-68 | `Lobby_Inst` with `{lobby: v}` resolves to `/app/LobbyWait/` followed by the text of `v` (the source agrees for text without `$`) |
| Routes.GameInstResolve | web/src/view/nav/route.ts:64-68 | `Game_Inst` with `{game: v}` resolves to `/app/board/` followed by the text of `v` (the source agrees for text without `$`) |
| Routes.GameInstExample | web/src/view/nav/route.ts:64-68 | `Game_Inst` with `{game: 42}` resolves to `/app/board/42` |
| Routes.LobbyQuery | web/src/view/nav/route.ts:20 | the query suffix is empty iff the lobby id is falsy (absent or 0), and contains `?` iff it is truthy |
| Routes.LobbyQueriedPath | web/src/view/nav/route.ts:19-20 | `Lobby_Inst` filled with `lobby` and then the query is `/app/LobbyWait/lobby` followed by the query suffix |
| Routes.GameQueriedPath | web/src/view/nav/route.ts:24-25 | `Game_Inst` filled with `game` and then the query is `/app/board/game` followed by the query suffix |
| Routes.LobbyPath | web/src/view/nav/route.ts:18-21 | `getLobbyPath(id)` is `/app/LobbyWait/lobby` followed by the query, and has a `?` iff `id` is truthy |
| Routes.GamePath | web/src/view/nav/route.ts:23-26 | `getGamePath(id)` is `/app/board/game` followed by the query, and has a `?` iff `id` is truthy |
| Routes.LobbyPathExamples | web/src/view/nav/route.ts:18-21 | `getLobbyPath(5)` is `/app/LobbyWait/lobby?lobbyId=5`; no id and id `0` both give `/app/LobbyWait/lobby` |
| Routes.LobbyMainPath | web/src/view/nav/route.ts:28-30 | `getLobbyMainPath()` succeeds with `/` followed by the `LobbyMain` template |
| Routes.LobbySearchPath | web/src/view/nav/route.ts:32-34 | `getLobbySearchPath()` succeeds with `/` followed by the `LobbySearch` template |
| Routes.LobbyWaitPath | web/src/view/nav/route.ts:36-38 | `getLobbyWaitPath()` succeeds with `/` followed by the `LobbyWait` template |
| Routes.BoardPath | web/src/view/nav/route.ts:40-42 | `getBoardPath()` succeeds with `/` followed by the `BOARD` template |
| Routes.UserLoginPath | web/src/view/nav/route.ts:44-46 | `getUserLoginPath()` succeeds with `/` followed by the `USER_LOGIN` template |
| Routes.LiteralHelperPaths | web/src/view/nav/route.ts:28-46 | the five literal helpers give `/app/Lobby`, `/app/LobbySearch`, `/app/LobbyWait`, `/app/board` and `/app/UserLogin` |
| Routes.ToNumber | web/src/view/nav/route.ts:88 | `Number` of a run of decimal digits is its decimal value |
| Routes.RouteParams | web/src/view/nav/route.ts:86-92 | total: an absent or empty `userId` becomes 0 and a digit string its value; an absent or empty `lobby`/`game` becomes `''` and a non-empty one is kept |
| Routes.RouteParamsExamples | web/src/view/nav/route.ts:86-92 | `routeParams({})` is `{userId: 0, lobby: '', game: ''}`, and `userId: "7"` gives 7 |
| Routes.RouteParamsRoundTrip | web/src/view/nav/route.ts:86-92 | parsing the decimal text of a user id together with non-empty `lobby`/`game` texts gives them back unchanged |
| Text.Split | web/src/view/nav/route.ts:56 | `split('/')` always yields at least one piece |
| Text.SplitJoin | web/src/view/nav/route.ts:56 | splitting the join of separator-free parts gives the parts back |
| Text.JoinSplit | web/src/view/nav/route.ts:56 | joining the pieces of a split gives the original text back |
| Text.NatToDecimal | web/src/view/nav/route.ts:66 | the decimal text of a natural number is a non-empty run of digits without a leading zero |
| Text.IntToDecimal | web/src/view/nav/route.ts:66 | `'' + n` is non-empty and starts with `-` iff `n` is negative; the whole text (for `n >= 0`) or the text after the `-` (for `n < 0`) is a non-empty run of digits |
| Text.IntToDecimalValue | web/src/view/nav/route.ts:66 | the digits of `'' + n` denote `n` when `n >= 0` and `-n` when `n < 0` |
| Text.DecimalRoundTrip | web/src/view/nav/route.ts:88 | reading back the decimal text of `n` gives `n` |
| GameMutations.LobbyIdOf | web/src/view/page/GameMutations.ts:32 | the lobby id sent is the player's lobby id when there is a lobby, and `-1` otherwise |
| GameMutations.LobbyIdRoundTrip | web/src/view/page/GameMutations.ts:32 | when no real lobby has id `-1`, the sent id decodes back to the player's lobby or to none |
| GameMutations.MapTiles | web/src/view/page/GameMutations.ts:21-29 | the index loop pushing one wire tile per input tile computes `WireTiles(tiles)` |
| GameMutations.WireTilesElements | web/src/view/page/GameMutations.ts:21-29 | the mapped list has the input's length and order; element `i` keeps letter, tile type and location and carries the tile's `value` as `pointValue` |
| GameMutations.UnwireWireTiles | web/src/view/page/GameMutations.ts:23-28 | reading a mapped tile list back (`pointValue` back to `value`) gives the original tiles |
| GameMutations.SubmitMove | web/src/view/page/GameMutations.ts:20-37 | player id, time and move type are copied, the lobby id follows the sentinel rule, the tiles are the mapped list and read back to the input tiles, and the move's score is passed through |
| GameMutations.RandomizeMove | web/src/view/page/GameMutations.ts:43-50 | player id, time and move type are copied, the lobby id follows the sentinel rule, there is no tiles field and the score is 0 |
| GameMutations.SelectMove | web/src/view/page/GameMutations.ts:57-74 | as for a submit, but the score is 0 whatever the input |
| GameMutations.DeselectMove | web/src/view/page/GameMutations.ts:81-98 | as for a submit, but the score is 0 whatever the input |
| GameMutations.SelectDeselectAgree | web/src/view/page/GameMutations.ts:57-98 | selecting and deselecting with the same player, time, move type and tiles send identical records, scored 0, whose tiles read back to the input |
| GameMutations.ZeroSubmitIsSelect | web/src/view/page/GameMutations.ts:20-74 | a submit worth 0 points sends the same record as a select of the same tiles |

## Left out

- The outbound `getApolloClient().mutate(...)` calls and the GraphQL documents in `GameMutations.ts` (`makeMoveMutation`, `fetchLobbyMoves`): these are external transport and query text. The encoders return the record that would be sent.
- `web/src/view/page/Lobby/LobbySearch.tsx`: React components, data fetching and alerts. Its only logic is a display filter inside rendering.
- The record schema (`schema.types`) is not part of this model. Ids, times and tile locations are `int`, and tile and move type tags are `string`. These are stand-ins for the generated GraphQL types.
- Routes.RouteParams: `Number()` is modelled only for runs of decimal digits. For other non-empty `userId` text (letters, whitespace, hexadecimal, fractions) the result is `None`, where JavaScript gives `NaN` or another number. JavaScript floating point is not modelled.
- Routes.ToNumber: the same restriction to decimal digit runs.
- Routes.LobbyQuery: the lobby id is an optional integer. A fractional or `NaN` id and its `${}` text are not modelled.
- Routes.SubstituteKeys: substitution inserts the argument text literally, segment by segment, and looks each `:k` up in the original template. The source's `path.replace(':' + k, '' + arg[k])` differs from this in three ways:
  - The replacement is a replacement pattern, so `$$`, `$&`, `` $` `` and `$'` in the argument text are expanded. For example, `{game: 'a$$b'}` gives `/app/board/a$b` and `{game: '$&'}` gives `/app/board/:game`. The model gives `/app/board/a$$b` and `/app/board/$&`. The two agree for argument text without `$`; the `$` forms are not modelled, because `` $` `` and `$'` need the whole path text.
  - Each `replace` searches the path as already rewritten by the earlier keys, so an inserted value that contains `:k` can be replaced again. The model searches the original template. With segments `:a` and `:b` and the bag `{a: ':b', b: 'x'}`, the source gives `/x/:b` and the model gives `/:b/x`. No catalog template has two placeholders, so this case cannot arise in the catalog.
  - `replace` works on text, not on segments, so it differs when one placeholder name is a textual prefix of another (`:lobby` and `:lobbyId`). No catalog template has such names.
- Routes.ResolveSubstitutes, Routes.LobbyInstResolve, Routes.GameInstResolve: each lemma's result holds in the source only for argument text without `$`, for the reason above.
- `'' + v` of JavaScript values other than strings and integers (`undefined`, objects, fractions) is not modelled. Argument values are strings or integers.
- Text.IntToDecimal: JavaScript numbers are doubles. The model prints an integer in full decimal, which matches JavaScript only for safe integers (magnitude below 2^53). Beyond that, integers are not represented exactly, and from 1e21 up JavaScript uses exponent form (`'' + 1e21` is `"1e+21"`). Both also apply to `${lobbyId}` in the lobby query.
- Argument bags may have any string keys. The source's type restricts them to `userId`, `lobby` and `game`, and the model is more general.
- The `window.location` caveat in the comment above `getPath`: the code does not read the location.
