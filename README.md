# Xbox gamertag scanner — a Dafny model

`index.js` is a Discord selfbot. It walks every guild its account belongs to,
loads each guild's member list, and classifies every member that is not a bot
by username and display name against a fixed list of case-insensitive
regular expressions. It reports each member that matches once, with a
notification, for the life of the process. This project models:

- the classifier `checkForXboxGamertag` and `XBOX_GAMERTAG_PATTERNS`
  (`gamertag.dfy`). The fragment of JavaScript regular expressions these
  patterns use is written out as string functions in `regex.dfy`: the `i`
  flag without `u`, `.`, `\s`, `[:\s]`, `[A-Za-z0-9_]`, and greedy `*` with
  backtracking, with `exec` returning the leftmost match;
- the member roster that `scanGuild` loads (`roster.dfy`). The guild's member
  cache is a discord.js `Collection`, that is an insertion-ordered map keyed
  by member id. Three retrieval tiers fill it: the bulk fetch, the fetch
  without limit, and five paged rounds. The Discord member directory behind
  `guild.members.fetch` is an oracle: a function from the call's index and
  its options to the members delivered or a thrown error;
- the scan itself (`scanner.dfy`): the module-level `checkedUsers`,
  `totalScanned` and `totalFound`, the member loop, and the paged fallback
  after a failed fetch. It is modelled as the class `XboxScanner`, whose
  methods are proved equal to the specification functions `Visit`,
  `VisitAll`, `Pager`, `ScanGuildSpec` and `ScanAll`. Sending a notification
  (`sendGamertagInfo`) appends a `Notice` to a log kept in the class.

The headline property is `Scanner.AtMostOnce`. Over any sequence of guilds
and any fetch outcomes, including both fallbacks and thrown fetches, no
member id is notified twice. The notified ids are exactly `checkedUsers`.
`totalFound` equals `checkedUsers.size` and never exceeds `totalScanned`.
The scan lemmas are stated for any classifier. The class holds its
classifier in a constant field that the constructor sets to `Classify`, the
function that the imperative `Gamertag.CheckForXboxGamertag` is proved to
compute, so they hold for the real classifier in particular.

The classifier results worth knowing, all proved:

- Every one of the fourteen keyword patterns contains `xbox` or `xbl`, and
  `/xbox/i` and `/xbl/i` come first. So the keyword returned is the leftmost
  `xbox` if there is one, otherwise the leftmost `xbl`
  (`Gamertag.KeywordFamily`).
- Any name that fits `suffix_format` contains `xbox` or `xbl`, so the code
  never returns `suffix_format`. `bracket_format` is returned only for a
  `[gt]`-style tag (`Gamertag.UnreachableFormats`).
- `[Xbox] CoolKid` and `Sniper99 (XBL)` have the `bracket_format` and
  `suffix_format` layouts, but are classified `xbox_keyword` (keywords `Xbox`
  and `XBL`) because the keyword patterns run first
  (`GamertagExamples.BracketedXboxExample`,
  `GamertagExamples.SuffixedXblExample`).

## Model

| member | source | states |
|---|---|---|
| Regex.RunEnd | index.js:227 | a greedy `cls*` run from `from`: every character before the end is in the class and the character at the end is not |
| Regex.Find | index.js:15-16 | the leftmost case-insensitive occurrence of a literal at or after `start`: it is an occurrence, none lies before it, and `None` means there is none |
| Regex.MatchAt | index.js:17-28 | an anchored match of a keyword pattern ends inside the input and begins with the pattern's first literal |
| Regex.Backtrack | index.js:17-28 | retrying a `.*`/`\s*` gap from its longest extent downwards ends a match inside the input |
| Regex.Search | index.js:215-220 | `exec` finds a match whose span lies inside the input |
| Regex.RunWithin | index.js:17-28 | any stretch of gap characters from a position ends no later than the greedy run from there |
| Regex.BacktrackFinds | index.js:17-28 | if the rest of the pattern matches at some end of the gap, the backtracking search succeeds |
| Regex.BacktrackWitness | index.js:17-28 | the backtracking search succeeds only at a gap end where the rest of the pattern matches |
| Regex.MatchAtSound | index.js:17-28 | an anchored match implies the input has the pattern's layout there: its literals in order, separated by gap characters only |
| Regex.MatchAtComplete | index.js:17-28 | every layout of the pattern at a position is found by the anchored match |
| Regex.MatchAtIff | index.js:17-28 | an anchored match exists exactly when the pattern's layout fits at that position, in both directions |
| Regex.SearchLeftmost | index.js:215-220 | a match found by `exec` starts where the layout fits, and it fits nowhere between the search start and there |
| Regex.SearchComplete | index.js:215-220 | wherever the layout fits, `exec` from any earlier start finds a match |
| Regex.SearchIff | index.js:215-220 | `exec` succeeds exactly when the layout fits at some position, and then it reports the leftmost such position |
| Regex.SearchLiteral | index.js:215-220 | a one-literal pattern such as `/xbox/i` matches exactly at the leftmost occurrence of its literal, with the literal as match |
| Regex.MatchAtOccurs | index.js:17-28 | every literal part of a pattern that matches at a position occurs in the input |
| Regex.BacktrackOccurs | index.js:17-28 | every remaining literal part occurs in the input when the backtracking search succeeds |
| Regex.SearchOccurs | index.js:17-28 | a pattern matches a name only if each of its literal parts occurs in the name |
| Regex.LiteralWithin | index.js:23-26 | a literal found inside an occurrence of a longer literal (`xbox` inside `[xbox]`) occurs in the input |
| Gamertag.KeywordFromNone | index.js:215-224 | a name without `xbox` and `xbl` matches none of a list of patterns that each mention one of them |
| Gamertag.LaterPatternsMentionXbox | index.js:17-28 | each of the twelve later keyword patterns contains `xbox` or `xbl` in one of its literals |
| Gamertag.KeywordFamily | index.js:14-29 | `KeywordFrom`, the keyword step, returns the leftmost `xbox`, else the leftmost `xbl`, else nothing |
| Gamertag.GtFormatIff | index.js:227-234 | `GtFormatMatch`, the `gt_format` regex, captures `tok` exactly when the name is `gt` or `gamertag`, then one or more of `:`/whitespace, then `tok` of 3 to 20 word characters, in both directions |
| Gamertag.GtFormatMatchShape | index.js:227-234 | what `gt_format` captures is the token of a `gt`/`gamertag` label layout |
| Gamertag.GtShapeMatch | index.js:227-234 | every `gt`/`gamertag` label layout is captured by `gt_format`, with its token |
| Gamertag.RunEndOf | index.js:227 | a run of class characters followed by a non-class character or the end is the greedy run |
| Gamertag.BracketFormatIff | index.js:236-244 | on a name without `xbox`/`xbl`, `BracketFormatMatch` (`bracket_format`) captures `tok` exactly for `[gt] tok` with either bracket square or round, in both directions |
| Gamertag.BracketFormatMatchShape | index.js:236-244 | on such a name, what `bracket_format` captures is the token of a `gt` tag layout |
| Gamertag.GtBracketShapeMatch | index.js:236-244 | on such a name, every `gt` tag layout is captured by `bracket_format` |
| Gamertag.SuffixFormatNeedsXbox | index.js:246-254 | any name that `SuffixFormatMatch` (`suffix_format`) matches contains `xbox` or `xbl` |
| Gamertag.ClassifyName | index.js:213-255 | a hit records the name as source; it has a keyword exactly when it is `xbox_keyword`; a keyword hit's gamertag is the whole name, a format hit's is a 3 to 20 word-character token |
| Gamertag.FormatHit | index.js:226-254 | a format hit carries no keyword, is not `xbox_keyword`, and its gamertag is a 3 to 20 word-character token |
| Gamertag.NoKeywordMeansFormat | index.js:213-255 | a name without `xbox` and `xbl` is classified by the three formats alone |
| Gamertag.ClassifyNameIsExpected | index.js:213-255 | the classification of a name equals a statement free of the pattern list: leftmost `xbox`, else leftmost `xbl`, else the `gt` label layout, else the `[gt]` tag layout, else nothing |
| Gamertag.FormatsAreExpected | index.js:226-254 | on a name without `xbox`/`xbl`, the format chain equals the layout statement |
| Gamertag.GtAgrees | index.js:227-234 | `gt_format` fails exactly when no label layout fits, and captures the token of every layout that fits |
| Gamertag.BracketAgrees | index.js:237-244 | on a name without `xbox`/`xbl`, `bracket_format` fails exactly when no `gt` tag layout fits |
| Gamertag.UnreachableFormats | index.js:236-254 | `suffix_format` is never returned; `bracket_format` only for a `gt` tag on a name without `xbox`/`xbl` |
| Gamertag.ClassifyOrder | index.js:202-258 | `Classify` tries the username fully first; the display name is tried only when it is non-empty and different; otherwise the result is `null` |
| Gamertag.MatchKeyword | index.js:215-224 | the inner pattern loop returns the match of the first pattern that matches |
| Gamertag.CheckName | index.js:213-255 | one pass of the outer loop returns the name's classification |
| Gamertag.CheckForXboxGamertag | index.js:202-258 | the nested loops return the classification of the two names |
| GamertagExamples.GtLabelExample | index.js:227-234 | `GT: Player99` gives gamertag `Player99` as `gt_format` |
| GamertagExamples.GtLabelExtracts | index.js:227 | `gt_format` captures `Player99` from `GT: Player99` |
| GamertagExamples.GtBracketExample | index.js:236-244 | `[GT] CoolKid` gives gamertag `CoolKid` as `bracket_format` |
| GamertagExamples.GtBracketNotGtLabel | index.js:227 | `[GT] CoolKid` does not fit `gt_format` |
| GamertagExamples.GtBracketExtracts | index.js:237 | `bracket_format` captures `CoolKid` from `[GT] CoolKid` |
| GamertagExamples.LeadingXboxExample | index.js:215-224 | `XboxGamer123` is `xbox_keyword` with keyword `Xbox` and the whole name as gamertag |
| GamertagExamples.BracketedXboxExample | index.js:215-224 | `[Xbox] CoolKid` is `xbox_keyword` with keyword `Xbox`, not `bracket_format` |
| GamertagExamples.SuffixedXblExample | index.js:215-224 | `Sniper99 (XBL)` is `xbox_keyword` with keyword `XBL`, not `suffix_format` |
| GamertagExamples.NoMatchExample | index.js:257 | `RandomUser42` yields `null` |
| GamertagExamples.NoMatchFormats | index.js:226-254 | none of the three formats fits `RandomUser42` |
| Roster.UpsertFacts | index.js:96-101 | storing a fetched member adds exactly its id, keeps ids unique and in place, and appends only a new id |
| Roster.MergeFacts | index.js:81-101 | merging a reply into the cache adds exactly the reply's ids, keeps ids unique, and keeps the existing ids at their positions |
| Roster.CollectionFacts | index.js:164 | the collection a fetch returns has unique ids, all from the reply |
| Roster.SupplementCalls | index.js:95-103 | `Supplement`, the five offline rounds, adds one call per round, every one for a page of 1000, until one throws |
| Roster.SupplementCursor | index.js:95-100 | each offline round asks for the page after the last key of the cache as it stands at that round |
| Roster.SupplementCursorStep | index.js:95-100 | after a successful round with rounds left, the next call asks for the page after the last key of the cache merged with that round's reply |
| Roster.SupplementKeepsMembers | index.js:95-103 | the offline rounds lose no cached member and keep ids unique |
| Roster.LoadMembersTiers | index.js:81-104 | in `LoadMembers` the bulk fetch with `limit: memberCount` is the first call; at 90% or more nothing else is fetched; below, the call without limit is always the second call, and five rounds follow unless one throws, and no member of the bulk cache is lost |
| Roster.FetchMembers | index.js:80-104 | the fetch sequence of the `try` block yields the roster or the calls up to the one that threw |
| Scanner.SentIdsCount | index.js:131-134 | with no id notified twice, there are as many notified ids as notices |
| Scanner.VisitFacts | index.js:111-141 | `Visit`, one member step, keeps the invariant; a bot counts for nothing; another member counts as scanned; its id is added exactly when it yields a hit; it is notified only if its id was not checked before |
| Scanner.VisitAllFacts | index.js:111-141 | `VisitAll`, the member loop, keeps the invariant; it adds exactly the matching ids to `checkedUsers`; it raises `scanned` by the number of members that are not bots; `totalScanned` and `totalFound` grow in step with the guild's counters |
| Scanner.RescanIsSilent | index.js:123-126 | scanning members whose matching ids are all checked sends nothing, adds nothing, and finds nothing |
| Scanner.SecondScanSendsNothing | index.js:123-126 | scanning the same members a second time sends no notice |
| Scanner.PagerKeepsInv | index.js:160-191 | the fallback pager keeps the invariant, also when a page throws |
| Scanner.PagerAdvances | index.js:160-191 | the fallback pager only adds to the state and its counters grow with the totals; nothing is rolled back when a page throws |
| Scanner.PagerCalls | index.js:160-187 | `Pager`, the fallback, makes at most ten page calls, each for 1000 members, the first without a cursor, and at least one while pages are left |
| Scanner.PagerStopsAfterShortPage | index.js:160-186 | a page of other than 1000 members ends the fallback: no further call, no error, and its scan is the pager's result |
| Scanner.PagerCursorStep | index.js:160-187 | after a full page with pages left, the next call asks for the page after that page's last member |
| Scanner.ScanGuildFacts | index.js:72-200 | `ScanGuildSpec`, a guild scan, keeps the invariant and only adds to the state; its counters are `{0, 0}` when the fetches and then a fallback page threw, and the growth of the totals otherwise; after a successful fetch every cached member that is not a bot is scanned and exactly the matching ones are checked |
| Scanner.ScanAllFacts | index.js:45-70 | `ScanAll`, scanning the guilds in turn, keeps the invariant and only adds to `checkedUsers` and the notices |
| Scanner.AtMostOnce | index.js:124-136 | from the start state, no id is notified twice; the notified ids are `checkedUsers`; `totalFound` equals its size and never exceeds `totalScanned` |
| Scanner.XboxScanner.constructor | index.js:9-12 | the scanner starts with no checked users, both totals 0, no notices, and `checkForXboxGamertag` as its classifier |
| Scanner.XboxScanner.VisitMember | index.js:112-140 | the loop body changes the state and the guild's counters as one member step |
| Scanner.XboxScanner.VisitMembers | index.js:111-141 | the member loop changes the state as the member-step fold over the members, in order |
| Scanner.XboxScanner.ScanGuild | index.js:72-200 | `scanGuild` keeps the invariant and returns the counters and state of the guild-scan specification |
| Scanner.XboxScanner.Fallback | index.js:145-199 | the `catch` block's page loop keeps the invariant and leaves the state of the fallback pager, with counters `{0, 0}` when a page throws |
| Scanner.XboxScanner.StartXboxScan | index.js:45-70 | `startXboxScan` keeps the invariant and leaves the state of scanning the guilds in order |

## Left out

- The Discord client, login, the `ready` handler, `dotenv`, and all console output, including the `processed` counter that only drives progress logging. None of them affects the scan's state.
- The `setTimeout` pauses of 1000, 1500 and 2000 ms: they only delay.
- `sendGamertagInfo`: the embed, the user re-fetch for the banner, and the webhook POST are network I/O. A call is modelled as a `Notice` holding the member, guild, classification and the running totals its embed shows. Its own failures are caught in the source. The model also assumes it does not throw into `scanGuild`, as it would for a user without `createdAt`.
- The `SIGINT` and `unhandledRejection` handlers: process-level I/O.
- Roster.Insufficient: compares `10 * size < 9 * memberCount` over the integers; the source multiplies by the double `0.9`, and floating-point rounding is not modelled.
- Roster.MemberId: ids are treated as non-empty snowflake strings, so a present cursor is always truthy for `if (lastId)`.
- Regex.Fold: strings are sequences of `char`; UTF-16 surrogate pairs are not modelled. Without `u`, JavaScript upper-cases both sides of a comparison, and no non-ASCII character upper-cases to an ASCII one. Every pattern character is ASCII, so folding 'A'..'Z' alone decides the same matches.
- Roster.FetchMembers: `guild.members.cache` is passed along as a value rather than as the shared object. The fallback's pages are also stored in that cache, which nothing reads afterwards, so this is not modelled.
- Scanner.XboxScanner.StartXboxScan: the `catch` around each `scanGuild` call is not modelled, because `scanGuild` catches every fetch error itself and nothing else in it throws under the assumptions above.
- The `force` and `cache` options of each fetch are always `true` and are not represented.
