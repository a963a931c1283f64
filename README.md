# discord-a2s-bot: the decision core, in Dafny

discord-a2s-bot is a Discord bot that polls game servers over the A2S query
protocol and reflects their state in Discord. Each cycle it queries every
configured server, sums players, slots and queue lengths into presence
statistics, and publishes a rich-presence status ("15/52 players on 2/3
servers"). It also queues one task per server that renders the server's
channel and category templates and edits them, but only when the rendered
text's fingerprint differs from the last one applied.

This project models the deterministic decisions inside that concurrent shell
and proves their properties:

- `Presence`: the status text and mode of `makeUSD` (128-byte bound, ellipsis, offline texts) and the
  publish rule of `PresenceStats.update` (skipped while the cumulative value
  `OnlineServers + Players + Queue` is unchanged, stored only on success).
- `Config`: the configuration objects as classes. `ServerConfig` holds the two fingerprint fields, which
  `updateChannel` and `updateCategory` update step by step. Each method renders, truncates the description to 1024 bytes,
  fingerprints, compares, edits, and advances the stored fingerprint exactly
  when the edit returned nil. `Config` holds the last published cumulative value.
- `Edit`: the guard chain of `editChannel`: empty id, nothing to edit,
  context done before the request, the request's fields, and context done after it.
- `Worker`: `processChannelUpdate`: the nil guard, then the channel, then the category, each error only
  logged.
- `Cycle`: `update`, read as a loop over the servers. It folds the query outcomes into the
  totals and builds one task per server with that server's id, host, port, info and game
  extras. Then it publishes presence once. The totals are proved equal to
  independent sums and independent of the order of the outcomes, which is what
  makes the sequential reading of the concurrent program sound.
- `Templates`: the template helpers `OSEmoji`, `TimeEmoji`, `CodeEmoji`,
  `CountryEmoji` and `ValueColorEmoji`. Also the two fallback texts of `render`, and the
  string branch (plus the integer branches) of `toInt64`. Template text here is a string of code points.
- `Fnv`: `generateHash`, the 32-bit FNV-1a hash (FNV offset basis 2166136261, prime 16777619).
- `Text`: Go strings as bytes: UTF-8 encoding of literals, truncation, `%d`, and
  `strconv.ParseInt` in base 10.

External collaborators are parameters:
- the template engine: `Engine`;
- the change fingerprint: `Fingerprint`;
- each server's query answer: `query`;
- the DayZ keyword parser: `QueueParser`;
- the application ids of Arma 3, DayZ and DayZ Experimental: `AppIds`;
- the Unicode letter table: `unicodeLetter`;
- the platform's replies and the request context: `Reply`, `EditEnv`.

The fingerprint fields are declared `uint32` in `cli/config.go:39-40`, but
`channel.go` compares them with the 64-bit result of `xxh3.HashString`.
So the model has one abstract 64-bit `Hash` type, and `generateHash` (FNV-1a) is
modelled on its own without being the change detector's fingerprint.

Details of the program that the model keeps exactly:
- The "(+Q)" part of the status appears whenever the queue is not 0. Since the queue is a sum of natural numbers, this is the same as a positive queue.
- A failed render of the channel name keeps `render`'s warning text ("⛔ template
  error" or "⚠️ template error"). Only the description and the category name become empty after a failed render.
- Both bounds, 128 and 1024, count bytes, not characters. The 1024-byte cut can split a multi-byte UTF-8 sequence.

Observations the proofs make explicit:
- `SlotsChangeUndetected`: a change in slots alone is never published.
- `AllFailedCumulativeZero`: a first cycle in which no server answers is not published, since the stored value starts at 0.
- `CategoryRenderFailureStoresEmptyFingerprint`: a failed category render stores the empty name's fingerprint without any request.
- `BoundaryShiftSuppressed`: the fingerprint covers name and description concatenated, so moving text between them goes undetected.

## Model

| member | source | states |
|---|---|---|
| Text.Truncate | cli/channel.go:39-41 | at most `limit` bytes; unchanged when it fits; otherwise exactly `limit` bytes: the first `limit-3` bytes of the input, then "..." |
| Text.ParseDecimal | cli/template.go:221 | `strconv.ParseInt` in base 10 reads back every int64 formatted by `%d` (negatives included) |
| Text.ParseInt | cli/template.go:221 | a result needs a non-empty input, and a negative result needs a leading '-' |
| Text.Decimal | cli/presence.go:75-84 | at least one byte; a leading '-' exactly for a negative number, and digits after it |
| Text.DecimalInjective | cli/presence.go:75-84 | different integers have different `%d` forms |
| Text.TruncateIdempotent | cli/channel.go:39-41 | truncating an already truncated text changes nothing |
| Text.AsciiIsUtf8 | cli/presence.go:61-87 | a string literal of ASCII characters is stored one byte per character, which is its UTF-8 encoding |
| Fnv.GenerateHashEmpty | cli/config.go:96-100 | the hash of the empty string is the offset basis 2166136261 |
| Fnv.GenerateHashStep | cli/config.go:96-100 | `hash(s + [b]) == ((hash(s) XOR b) * 16777619) mod 2^32`, computed with 32-bit XOR |
| Fnv.AbsorbAppend | cli/config.go:96-100 | hashing `s + t` continues from the state after `s`: the hash is a left fold over the bytes |
| Fnv.GenerateHashOfA | cli/config.go:96-100 | the FNV-1a 32-bit test value of "a" is 0xe40c292c |
| Fnv.GenerateHash | cli/config.go:96-100 | defined as the left fold of FNV-1a rounds over the bytes, starting from the offset basis |
| Templates.Render | cli/template.go:37-60 | failed exactly when the engine did not produce output; then the text is "⛔ template error" after a parse error and "⚠️ template error" after an execution error, never empty; otherwise the engine's text |
| Templates.Lower | cli/template.go:93 | same length, rune by rune: ASCII capitals become lower case, U+0130 becomes "i", U+212A becomes "k", every other rune is kept |
| Templates.LowerRune | cli/template.go:93 | defined as `unicode.ToLower` on ASCII capitals, U+0130 and U+212A; every other rune is kept |
| Templates.LowerIdempotent | cli/template.go:93 | lower-casing twice is lower-casing once |
| Templates.UpperRune | cli/template.go:139-147 | an ASCII lower-case letter becomes its capital, whose lower case is the letter again; every other ASCII rune is kept |
| Templates.TrimSpace | cli/template.go:132 | defined as trimming white space on the left, then on the right |
| Templates.IsSpaceRune | cli/template.go:132 | defined as the runes `unicode.IsSpace` accepts: U+0009 to U+000D, space, U+0085, U+00A0, U+1680, U+2000 to U+200A, U+2028, U+2029, U+202F, U+205F and U+3000 |
| Templates.TrimSpaceEnds | cli/template.go:132 | the trimmed string is no longer than the input and has white space at neither end |
| Templates.TrimSpaceSurrounding | cli/template.go:132 | any amount of white space (as `unicode.IsSpace` defines it) before and after any string leaves the trimmed string unchanged |
| Templates.TimeEmoji | cli/template.go:84-89 | the moon exactly when the hour is before 7 or after 20; the sun for 7 through 20 inclusive |
| Templates.OSEmoji | cli/template.go:92-103 | each emoji exactly for its set of lower-cased names; the devil exactly for a name in none of them |
| Templates.OSEmojiIgnoresCase | cli/template.go:93 | the result does not depend on case; "LINUX", "Windows" and "FreeBSD" give the penguin, the window and the devil |
| Templates.Flag | cli/template.go:158-171 | always two runes |
| Templates.IsCode | cli/template.go:159-167 | defined as the guard of `tplHelperCodeEmoji`: exactly two runes, both capitals A to Z |
| Templates.FlagRoundTrip | cli/template.go:158-171 | a two-capital code is read back from its flag; anything else gives the white flag, which reads back as no code |
| Templates.FlagInjective | cli/template.go:158-171 | different codes give different flags |
| Templates.CodeEmoji | cli/template.go:158-171 | the rune-filling loop returns the flag of the code |
| Templates.ExceptionsAreCodes | cli/template.go:120-130 | every entry of the exception table is a valid two-letter code |
| Templates.CountryFlag | cli/template.go:119-155 | the result is the white flag or a readable flag of two capital letters |
| Templates.CollectLetters | cli/template.go:138-152 | the letter loop with its early stop collects the first two letters, upper-cased |
| Templates.FirstLetters | cli/template.go:139-147 | at most `k` letters, and no more than the string has runes |
| Templates.IsLetterRune | cli/template.go:141 | defined as `unicode.IsLetter`: an ASCII letter decided here, any other rune by the `unicodeLetter` table |
| Templates.CountryEmoji | cli/template.go:119-155 | trims, lower-cases, consults the exception table, else flags the first two letters |
| Templates.CountryFlagOfUsa | cli/template.go:120-136 | "USA" and "united states" both give the US flag |
| Templates.CountryFlagOfUnitedKingdom | cli/template.go:120-136 | "United Kingdom" gives the GB flag |
| Templates.CountryFlagOfGermany | cli/template.go:138-152 | a name missing from the table gives the flag of its first two letters: "Germany" gives GE |
| Templates.CountryFlagOfLetters | cli/template.go:134-152 | a name outside the table with two letters gets the flag of its first two letters, upper-cased; the byte-length guard `len(lowerName) >= 2` always holds then |
| Templates.CountryFlagNeedsTwoLetters | cli/template.go:138-154 | a name outside the exception table with fewer than two letters gives the white flag |
| Templates.CountryFlagIgnoresSurroundingSpace | cli/template.go:132 | any leading and trailing white space, of any length, does not change the flag |
| Templates.ValueColorBands | cli/template.go:181-206 | 0 is purple before any range test; negative or above the limit is prohibited; otherwise 1 <= value <= limit, and each colour holds exactly in its inclusive band of value/limit |
| Templates.ValueColor | cli/template.go:185-206 | purple exactly for 0; prohibited exactly for a non-zero value below 0 or above the limit |
| Templates.ValueColorEmoji | cli/template.go:181-206 | purple exactly when the first argument converts to 0, so in particular for an unparsable string |
| Templates.ToInt64OfString | cli/template.go:220-225 | a decimal string gives its value; an unparsable one such as "12abc" or "" gives 0 |
| Templates.ToInt64OfUnsigned64 | cli/template.go:216-217 | a uint64 is converted with two's-complement wrap-around |
| Templates.ToInt64 | cli/template.go:209-229 | a string that `ParseInt` accepts (with a sign, leading zeros or not) gives exactly the parsed value, an unparsable string gives 0, and any other kind gives 0 |
| Edit.EditFields | cli/worker.go:105-111 | the name is set exactly when non-empty, and so is the topic |
| Edit.HasWork | cli/worker.go:76-85 | defined as the negation of `editChannel`'s early returns: a non-empty id, and a name or a description |
| Edit.EditChannel | cli/worker.go:75-121 | no request and nil without an id or without text; with the context done before, "canceled before request" and no request; otherwise the request, then "canceled after request" if the context is done after it, else the platform's error; nil exactly when there was nothing to do or all went well |
| Config.ChannelName | cli/channel.go:24-30 | empty without a template; otherwise the rendered text, which after a failed render is the non-empty warning |
| Config.ChannelDescription | cli/channel.go:32-43 | at most 1024 bytes; empty without a template or after a failed render; otherwise the truncated rendering |
| Config.ChannelCall | cli/channel.go:15-50 | no call when disabled; otherwise no call exactly when the fingerprint of name + description equals the stored one; a call carries the channel id, the rendered name (`ChannelName`) and the rendered, truncated description (`ChannelDescription`), which has at most 1024 bytes |
| Config.CategoryName | cli/channel.go:75-79 | the rendered text, or empty after a failed render |
| Config.CategoryCall | cli/channel.go:70-85 | no call when disabled; otherwise no call exactly when the fingerprint of the name equals the stored one; a call carries the category id, the rendered name (`CategoryName`) and an empty description |
| Config.CallOutcome | cli/channel.go:59-62 | no call, no error |
| Config.ChannelEnabled | cli/channel.go:15-20 | defined as: a channel id, a session, template data, and a name or a description template |
| Config.CategoryEnabled | cli/channel.go:71-73 | defined as: a category id, a name template, a session and template data |
| Config.NextHash | cli/channel.go:59-65 | defined as: the fingerprint of the call's name + description when a call was made and returned nil, otherwise the previous value |
| Config.HashAdvancesIffEditSucceeded | cli/channel.go:59-66 | the stored fingerprint changes exactly when an edit was called and returned nil; then it is the new text's fingerprint, and after a failure it is untouched |
| Config.TruncatedEqualIsUnchanged | cli/channel.go:39-50 | two descriptions equal after truncation give the same decision |
| Config.CategoryRenderFailureStoresEmptyFingerprint | cli/channel.go:75-97 | a failed category render calls `editChannel` with no text, which sends no request and returns nil, and the empty name's fingerprint is stored |
| Config.BoundaryShiftSuppressed | cli/channel.go:46-50 | a render whose name + description concatenation equals the applied one is suppressed, however the text is split |
| Config.ServerConfig.constructor | cli/config.go:36-54 | the configuration fields as given; both fingerprints start at 0 |
| Config.ServerConfig.UpdateChannel | cli/channel.go:14-67 | makes the `ChannelCall` call, returns its error, and changes `prevChannelHash`, to the new fingerprint, exactly when the call returned nil |
| Config.ServerConfig.UpdateCategory | cli/channel.go:70-100 | the same for the category and `prevCategoryHash` |
| Config.Config.constructor | cli/config.go:19-29 | the servers as given; the stored cumulative value starts at 0 |
| Config.ChannelTwice | cli/channel.go:46-66 | a second cycle with the same text after a successful edit makes no call; after a failed one it makes the same call again |
| Presence.MakeUSD | cli/presence.go:60-103 | idle exactly when no server is online; one activity whose name and state are equal, at most 128 bytes, the full text when it fits, else its first 125 bytes and "..." |
| Presence.Cumulative | cli/presence.go:37 | defined as online servers plus players plus queue: the slots and the server count take no part |
| Presence.PresenceText | cli/presence.go:61-87 | defined as the offline text without an online server, otherwise the player counts followed by the server counts |
| Presence.PlayerCounts | cli/presence.go:74-78 | defined as "P/S players", or "P/S (+Q) players" when the queue is not 0, with `%d` numbers |
| Presence.ServerCounts | cli/presence.go:80-86 | defined as " on O/T servers" when some but not all of several servers are online, " on O servers" when all are, and nothing otherwise |
| Presence.SlotsInText | cli/presence.go:75-84 | while some server is online, different slots give different texts |
| Presence.OfflinePresence | cli/presence.go:63-70 | no server online: idle with "Server offline" for exactly one server, "All servers offline" otherwise (0 servers included) |
| Presence.OnlinePresence | cli/presence.go:71-87 | some server online: status online; "P/S players", or "P/S (+Q) players" when the queue is not 0; then " on O/T servers" when some of several are down, " on O servers" when all are up, nothing for one server |
| Presence.PlayersReadBack | cli/presence.go:74-78 | while online, the text starts with the player count, readable back with `ParseInt`, followed by '/' |
| Presence.ThreeServerPresence | cli/presence.go:72-86 | 3 servers, 2 online, 15 players, 52 slots, no queue: online with "15/52 players on 2/3 servers" |
| Presence.SlotsChangeUndetected | cli/presence.go:37-42 | two statistics differing only in slots always have the same cumulative value, so the second is never published; with no server online their statuses are equal, and with some server online and both texts within 128 bytes their statuses differ |
| Presence.UpdatePresence | cli/presence.go:36-52 | equal cumulative value: nothing sent, nil, nothing stored; otherwise `makeUSD` is sent, a rejection is returned wrapped with the value kept, and an acceptance stores the new cumulative value |
| Presence.PresenceTwice | cli/presence.go:36-52 | a repeat after an accepted update sends nothing; after a rejected one it sends the same status again |
| Worker.ProcessChannelUpdate | cli/worker.go:43-66 | with no session, server or data nothing is attempted and nothing changes; otherwise the channel is updated, then the category, whose call and fingerprint do not depend on the channel's outcome |
| Cycle.ExtraFor | cli/update.go:61-71 | Arma 3 extras exactly for the Arma 3 id; DayZ extras with the parsed queue exactly for the DayZ ids; the Arma 3 case wins |
| Cycle.LocalQueueOnlyDayZ | cli/update.go:61-71 | Arma 3 and other games add no queue; DayZ and DayZ Experimental add the parsed queue |
| Cycle.DataFor | cli/update.go:38-58 | the task's data carries its own server's id, host and port; no info and no extras exactly when the query failed |
| Cycle.LocalQueue | cli/update.go:60-71 | defined as the parsed queue for a DayZ answer and 0 for any other game |
| Cycle.TaskFor | cli/update.go:55 | defined as the server with its template data, queued whether or not the query answered (also at update.go:82) |
| Cycle.Outcomes | cli/update.go:50 | one query outcome per server, in order |
| Cycle.FoldStep | cli/update.go:50-79 | a failed query leaves the totals as they were; an answer adds one online server, its players, its slots and its queue |
| Cycle.Tally | cli/update.go:74-79 | defined as: a failed query adds nothing; an answer adds one online server, its players, its slots and its local queue |
| Cycle.Fold | cli/update.go:74-79 | defined as the tally of the outcomes one after the other, in order, from the initial totals |
| Cycle.Totals | cli/update.go:25 | defined as the fold of the outcomes from `Servers` equal to their number and every counter 0 |
| Cycle.FoldIsSum | cli/update.go:74-79 | the fold keeps the server count and adds to each counter the sum of the servers' contributions |
| Cycle.OnlineCounts | cli/update.go:78 | at most one online server per server; all of them exactly when all answered, none exactly when all failed |
| Cycle.TotalsCount | cli/update.go:25-79 | Servers is the number of servers; 0 <= OnlineServers <= Servers; the counters are the sums of the answers |
| Cycle.TotalsPermutation | cli/update.go:31-86 | the totals are the same for any order of the outcomes |
| Cycle.QueueOnlyFromDayZ | cli/update.go:61-77 | a non-zero queue total comes from some answered DayZ server |
| Cycle.AllFailedCumulativeZero | cli/update.go:50-57 | when no server answers, the totals are all 0 except Servers, and the cumulative value is 0 |
| Cycle.ThreeServerTotals | cli/update.go:25-79 | two answers (5/32 and 10/20) and one failure give the totals 3, 2, 15, 52, 0 and the text "15/52 players on 2/3 servers" |
| Cycle.VisitServer | cli/update.go:38-82 | one server's task carries its id, host and port, its info only when it answered, and the Arma 3 or DayZ extra chosen by app id; its answer adds one online server, its players, slots and DayZ queue to the totals, and a failed query adds nothing |
| Cycle.Update | cli/update.go:24-94 | the totals are the fold of the servers' outcomes; exactly one task per server, in order, each with its own data; then one presence publish under the `UpdatePresence` rule, whose error is only logged |

## Left out

- Concurrency: the goroutines, semaphore, wait group and mutex of `update`, and `startUpdateWorkers` with its 100-slot queue. The cycle is a loop in server order, and the queued tasks are its returned sequence. The order of completion does not change the totals (`Cycle.TotalsPermutation`), but the order in which tasks reach the queue is not modelled.
- Worker timing: the 30-second deadline is shared by the channel and category edits of one task. Its observations are two independent `EditEnv` inputs, and the model does not assume a deadline stays passed once passed.
- The A2S client (`getInfo`): its answer for each server is the `query` parameter.
- The template engine (`text/template`): only the two fallback texts of `render` are modelled.
- `xxh3.HashString`: the `Fingerprint` parameter.
- `keywords.ParseArma3` and `keywords.ParseDayZ`: the Arma 3 extras keep the raw keywords, and the DayZ queue is the `QueueParser` parameter.
- The application ids from the `appid` package: the `AppIds` parameter.
- `tplHelperAppIDtoString`: it only consults the `appid` name table.
- `tplHelperDurationEmoji`: it uses floating-point `math.Mod` over hours.
- Templates.Lower, Templates.LowerRune, Templates.UpperRune, Templates.IsLetterRune: the `unicode` tables are not modelled. Case mapping covers ASCII plus U+0130, U+212A, U+0131 and U+017F, and letters outside ASCII are the `unicodeLetter` parameter. The other case mappings cannot change a helper's result: every key of the OS sets and of the country table, and every flag letter, is ASCII, and no other rune maps to or from an ASCII letter.
- Templates.ValueColor, Templates.ValueColorBands: the proportion is compared exactly, as a real, where the program rounds `float64(value)/float64(limit)` and compares it with the binary approximations of 0.1, 0.5, 0.75 and 0.9. Rounding is not modelled, so at a band edge (and for values beyond 2^53) the colour the program picks can differ from the exact band.
- Templates.ToInt64: the float branches and the int8, int16 and int32 kinds (which the program sends to its default case) are not separate inputs.
- Logging: it affects no decision, including the warning for channel names longer than 25 bytes.
- `readConfig`, `logger.go`, `args.go`, `main.go` and `internal/vars/vars.go`: file, terminal and process I/O.
- The Discord session: `ChannelEdit` and `UpdateStatusComplex` are replies given as inputs.
- Presence.PresenceStats: the counters are unbounded integers; Go's 64-bit `int` overflow is not modelled.
