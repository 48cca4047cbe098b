# Deck CalDAV adapter — a Dafny model

The Deck app (a task board: boards hold stacks, stacks hold cards) exposes its boards over
CalDAV (RFC 4791) through a Sabre/DAV backend. Each board is a calendar and each card a
calendar object holding one VTODO. This project models that backend's read path, its
principal-URI rewriting, its share ACL and its stubbed write operations, and the server
plugin that puts `deck/<id>` into a user's calendar home. It proves what these operations
return.

Layout:

- `wrappers.dfy`: `Option` (PHP `null`) and `Result` (a thrown exception).
- `php_strings.dfy`: PHP's int-to-string conversion and `strrpos` with an offset.
- `sabre_uri.dfy`: the name part of `Sabre\Uri\split`. `Sabre\Uri` is a third-party library.
  The model follows its regular expression for paths without a line feed: drop one trailing
  `/`, then take the maximal trailing run of non-`/` characters. The result is `null` when
  nothing is left or what is left ends in `/`.
- `sequences.dfy`: mapping a function over a sequence, and the first position of a key, with
  the facts that the traversal loops need.
- `caldav_backend.dfy`: the records, the class `CalDavBackend` (its mutable field
  `legacyEndpoint`, its constant principal prefix, and `md5` and the VObject serialiser as
  uninterpreted function constants) and the lemmas.
- `deck_dav_plugin.dfy`: `getCalendarHomeForPrincipal`.

Specification functions without a contract of their own, used by the contracts below:

- `CalDav.Flatten`: the cards of all stacks in stack order, then card order.
- `CalDav.TotalCards`: the card count.
- `CalDavBackend.CalendarOf`: the calendar built from a board.
- `CalDav.ObjectUri` and `CalDav.CardUri`: a card's file name, its id followed by `.ics`.
- `PhpStrings.IntToString`: PHP's int-to-string cast.
- `CalDavBackend.ConvertPrincipal`: the principal-URI rewriting.
- `Sequences.FindFirst`: the first element whose key is a given one.
- `CalDavBackend.EntryFn` and `CalDavBackend.Listing`: the listed records.
- `CalDavBackend.Lookup`: the record of the first card with a given file name, or `None`.

Notes on the code:

- `boardToCalendar` sets `legacyEndpoint` to false before it converts the owner principal.
  That changes the principal that later `applyShareAcl` calls grant.
- The calendar-home test `strrpos($u, 'principals/users', -strlen($u)) !== false` is a plain
  prefix test (`StrRPosFromStartIsPrefixTest`).
- Converting a principal to the v2 form is idempotent only when split finds a name
  (`ConvertPrincipalIdempotent`). Otherwise the first conversion yields `principals/users/`,
  and converting that again yields `principals/users/users` (`ConvertPrincipalWithoutName`).

## Model

| member | source | states |
|---|---|---|
| `PhpStrings.NatToDecimal` | lib/Dav/CalDavBackend.php:73 | a non-negative integer prints as at least one decimal digit, without a leading zero |
| `PhpStrings.DecimalRoundTrip` | lib/Dav/CalDavBackend.php:73 | reading the printed digits back gives the integer |
| `PhpStrings.IntToStringShape` | lib/Dav/CalDavBackend.php:73 | PHP's int-to-string cast yields decimal digits, with a leading `-` exactly for negative values |
| `PhpStrings.IntToStringInjective` | lib/Dav/CalDavBackend.php:73 | distinct ids print as distinct strings |
| `PhpStrings.LastOccurrence` | lib/Dav/DeckDavPlugin.php:47 | the backward scan finds the largest occurrence position in range, or reports that there is none |
| `PhpStrings.StrRPos` | lib/Dav/DeckDavPlugin.php:47 | a position that `strrpos` returns is an occurrence of the needle |
| `PhpStrings.StrRPosFromStartIsPrefixTest` | lib/Dav/DeckDavPlugin.php:47 | with offset `-strlen(haystack)`, `strrpos` succeeds exactly when the needle is a prefix |
| `SabreUri.TrailingSegmentIsMaximalSuffix` | lib/Dav/CalDavBackend.php:105 | the trailing segment is a suffix without `/`, and it is either the whole path or preceded by `/` |
| `SabreUri.SplitName` | lib/Dav/CalDavBackend.php:105 | a name from split is non-empty and has no `/` |
| `SabreUri.SplitNameNull` | lib/Dav/CalDavBackend.php:105 | split gives null exactly for the empty path, `/` and paths ending in `//` |
| `SabreUri.SplitNameOfJoin` | lib/Dav/CalDavBackend.php:105 | split of `dir/name`, with or without a trailing `/`, gives `name` |
| `SabreUri.SplitNameOfPlainName` | lib/Dav/CalDavBackend.php:105 | a path without `/` is its own name |
| `CalDav.ObjectUriShape` | lib/Dav/CalDavBackend.php:201 | a card's file name ends in `.ics` and contains no `/` |
| `CalDav.ObjectUriInjective` | lib/Dav/CalDavBackend.php:237 | two cards share a file name only if they share an id |
| `CalDav.FlattenLength` | lib/Dav/CalDavBackend.php:193-195 | the traversal visits as many cards as all stacks hold |
| `CalDav.FlattenAt` | lib/Dav/CalDavBackend.php:193-195 | card `j` of stack `i` is visited right after the cards of all earlier stacks |
| `Sequences.FirstIndex` | lib/Dav/CalDavBackend.php:234-255 | the result is the first position holding the key; it is absent exactly when the key does not occur |
| `Sequences.FirstIndexAt` | lib/Dav/CalDavBackend.php:234-253 | an occurrence with none before it is the first one |
| `CalDav.FoundFirst` | lib/Dav/CalDavBackend.php:234-251 | the nested loop's early return at card `j` of stack `i` returns the first card of the whole traversal with that name |
| `CalDav.FirstMatchOfDistinctIds` | lib/Dav/CalDavBackend.php:237 | with pairwise distinct ids, a card's file name is first found at that card |
| `CalDav.Unsupported` | lib/Dav/CalDavBackend.php:273 | the stub outcome is the NotImplemented error |
| `CalDav.CalDavBackend.constructor` | lib/Dav/CalDavBackend.php:51-54 | the backend keeps the principal prefix and the given `legacyEndpoint`, which defaults to false |
| `CalDav.CalDavBackend.ConvertPrincipal` | lib/Dav/CalDavBackend.php:103-112 | the conversion itself; its contract is stated by `ConvertPrincipalShape`, `ConvertPrincipalKeepsName`, `ConvertPrincipalIdempotent` and `ConvertPrincipalWithoutName` below |
| `CalDav.CalDavBackend.ConvertPrincipalShape` | lib/Dav/CalDavBackend.php:103-112 | under prefix `principals`, the result is `principals/users/` (v2) or `principals/` (v1) plus a single segment; under any other prefix it is the input |
| `CalDav.CalDavBackend.ConvertPrincipalKeepsName` | lib/Dav/CalDavBackend.php:103-112 | under prefix `principals`, both forms of `dir/name` carry `name` |
| `CalDav.CalDavBackend.ConvertPrincipalIdempotent` | lib/Dav/CalDavBackend.php:104-107 | converting to v2 twice equals converting once, when split finds a name |
| `CalDav.CalDavBackend.ConvertPrincipalWithoutName` | lib/Dav/CalDavBackend.php:104-107 | without a name, v2 gives `principals/users/`, and converting again gives `principals/users/users` |
| `CalDav.CalDavBackend.CalendarOfFields` | lib/Dav/CalDavBackend.php:70-80 | uri is the id as a string, colour is `#` plus the board colour, both owner tags are equal, components are VEVENT and VTODO |
| `CalDav.CalDavBackend.CalendarUriInjective` | lib/Dav/CalDavBackend.php:73 | boards with equal calendar uris have equal ids |
| `CalDav.CalDavBackend.CalendarOwnerPrincipal` | lib/Dav/CalDavBackend.php:68-75 | for an owner id without `/`, the principal is `principals/users/<owner>` under any prefix |
| `CalDav.CalDavBackend.BoardToCalendar` | lib/Dav/CalDavBackend.php:67-83 | returns the board's calendar, and `legacyEndpoint` is false afterwards |
| `CalDav.CalDavBackend.GetCalendarsForUser` | lib/Dav/CalDavBackend.php:147-153 | one calendar per board, in board order; `legacyEndpoint` stays unchanged only when there are no boards |
| `CalDav.CalDavBackend.ApplyShareAcl` | lib/Dav/CalDavBackend.php:85-93 | the input ACL is kept and exactly one protected `{DAV:}read` entry is appended, for principal 1 converted with `!legacyEndpoint` |
| `CalDav.CalDavBackend.ShareAclPrincipal` | lib/Dav/CalDavBackend.php:89 | under prefix `principals`, the grant goes to `principals/1` on a legacy endpoint and to `principals/users/1` otherwise |
| `CalDav.CalDavBackend.GetShares` | lib/Dav/CalDavBackend.php:95-97 | there are never any shares |
| `CalDav.CalDavBackend.GetPublishStatus` | lib/Dav/CalDavBackend.php:99-101 | the publish status is always empty |
| `CalDav.CalDavBackend.ObjectOf` | lib/Dav/CalDavBackend.php:238-250 | the full record carries the serialised calendar, with size equal to its length |
| `CalDav.CalDavBackend.EntryOf` | lib/Dav/CalDavBackend.php:196-207 | a listed record equals the full record without calendar data |
| `CalDav.CalDavBackend.EtagOfLastModified` | lib/Dav/CalDavBackend.php:203 | the etag is the quoted md5 of last-modified, so cards with equal last-modified get equal etags |
| `CalDav.CalDavBackend.ListingOrder` | lib/Dav/CalDavBackend.php:193-209 | the listing has one record per card, in stack order then card order |
| `CalDav.CalDavBackend.ListingFields` | lib/Dav/CalDavBackend.php:199-207 | each listed record: card id, `<id>.ics`, last-modified, quoted-md5 etag, the calendar id, `vtodo`, serialised size, no calendar data |
| `CalDav.CalDavBackend.GetCalendarObjects` | lib/Dav/CalDavBackend.php:188-212 | the nested loops build exactly the listing |
| `CalDav.CalDavBackend.LookupAgreesWithListing` | lib/Dav/CalDavBackend.php:230-256 | lookup is null exactly when no listed record has the uri; otherwise it is the first such record plus its calendar data |
| `CalDav.CalDavBackend.LookupById` | lib/Dav/CalDavBackend.php:237-250 | with distinct card ids, looking up a card's file name returns that card's full record |
| `CalDav.CalDavBackend.LookupFound` | lib/Dav/CalDavBackend.php:236-250 | a match at card `j` of stack `i`, with no match before it, is what the lookup returns |
| `CalDav.CalDavBackend.ScanStack` | lib/Dav/CalDavBackend.php:236-252 | the inner loop either returns the lookup's record or shows that no card up to this stack has the name |
| `CalDav.CalDavBackend.GetCalendarObject` | lib/Dav/CalDavBackend.php:230-256 | the nested loop with early return yields exactly the lookup |
| `CalDav.CalDavBackend.CreateCalendar` | lib/Dav/CalDavBackend.php:272-274 | always fails with NotImplemented |
| `CalDav.CalDavBackend.DeleteCalendar` | lib/Dav/CalDavBackend.php:283-285 | always fails with NotImplemented |
| `CalDav.CalDavBackend.UpdateCalendar` | lib/Dav/CalDavBackend.php:287-289 | always fails with NotImplemented |
| `CalDav.CalDavBackend.CreateCalendarObject` | lib/Dav/CalDavBackend.php:309-312 | always fails with NotImplemented |
| `CalDav.CalDavBackend.UpdateCalendarObject` | lib/Dav/CalDavBackend.php:332-335 | always fails with NotImplemented |
| `CalDav.CalDavBackend.DeleteCalendarObject` | lib/Dav/CalDavBackend.php:346-349 | always fails with NotImplemented |
| `CalDav.CalDavBackend.GetChangesForCalendar` | lib/Dav/CalDavBackend.php:407-410 | always fails with NotImplemented |
| `DeckDavPlugin.CalendarHomeForPrincipal` | lib/Dav/DeckDavPlugin.php:45-53 | a home is `deck/` followed by one segment without `/` |
| `DeckDavPlugin.CalendarHomeIffUsersPrefix` | lib/Dav/DeckDavPlugin.php:47 | there is a home exactly when the URL starts with `principals/users` |
| `DeckDavPlugin.CalendarHomeOfUser` | lib/Dav/DeckDavPlugin.php:47-49 | `principals/users/<id>` has the home `deck/<id>` |
| `DeckDavPlugin.CalendarHomeOfGroupIsNone` | lib/Dav/DeckDavPlugin.php:52 | `principals/groups/x` has no home |
| `DeckDavPlugin.CalendarHomeNotSegmentAware` | lib/Dav/DeckDavPlugin.php:47-49 | `principals/usersX/y` has the home `deck/y`, since the test is on characters |

## Left out

- The constructor's container lookups (group, user, board, stack and card services) and the user-session read (lib/Dav/CalDavBackend.php:56-64). These are host calls. The current user's id is not modelled.
- `BoardService::findAll` and `StackService::findAll`. They are host services. Their results are parameters: the boards of `GetCalendarsForUser` and the stacks of `GetCalendarObjects` and `GetCalendarObject`.
- `md5` and the VObject serialisation of `new VCalendar(['VTODO' => $card->getVtodo()])`. They are foreign code, so they are uninterpreted function constants of the backend. The card's VTODO component is an uninterpreted string.
- The Clark-notation property keys and `SupportedCalendarComponentSet`. They become named record fields, with the component set as the list `["VEVENT", "VTODO"]`.
- PHP's loosely typed values: ids and last-modified times are integers, and a card with an unset last-modified time is not modelled. ACL entries, shares and property patches are typed records or maps rather than arbitrary arrays.
- SabreUri.SplitName: paths that contain a line feed are not modelled. In the library's pattern `.` does not match a line feed and `$` also matches before a final one, so `split("a\nb/c")` gives `null` where `SplitName` gives `c`, and `split("x\ny/\n")` gives `x\ny` where `SplitName` gives a line feed. `convertPrincipal` and `getCalendarHomeForPrincipal` inherit this.
- SabreUri.SplitNameNull: states when split gives `null` for paths without a line feed only; for the reason above it does not hold for every path the library accepts.
- The serialised calendar data and all other strings are byte strings, one `char` standing for one byte. So `size`, which the source computes with `strlen`, is the byte count only under that reading; character encodings are not modelled.
- The `/u` flag of split's regular expression, which rejects invalid UTF-8. Strings here are sequences of characters.
- `strrpos` with an empty needle. It is only ever called with `principals/users`.
- `DeckDavPlugin::initialize`. It is an empty hook.
- src/store/dashboard.js is not part of this model. It is a UI store around a network call.
