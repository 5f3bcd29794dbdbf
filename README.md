# Digital business card: a verified model of its profile logic

The application publishes professional profiles. An administration
console creates, edits and deletes them. A public portfolio page shows
one profile and offers its contact as a vCard download. An Express
server keeps the profiles and the NFC cards in PostgreSQL tables.

This project models the parts of the application that decide what data
goes where:

- **The vCard serialisers** (`UserCard`, `Portfolio`). They cover which
  lines a card has and in what order, the `filter(Boolean).join('\n')`
  step, the download file name and the website link.
- **The console's transforms** (`Admin`):
  - the PostgreSQL array literal and how the store reads it back;
  - the comma-separated list inputs and how they are displayed;
  - the blank-entry filters and the required-field gate;
  - the search over the profile list and the editor for structured entries;
  - the four handlers, as a class over the dashboard's state.
- **The client-side cache of profiles** (`UserContext`). It is a class
  whose list the fetch-with-retries loop, the add, update and delete
  operations and the lookup read and change.
- **The server's users and cards routes** (`Routes`). They are a class
  over the two tables and their id sequences. Each route answers with a
  status code.
- **The JSON body between console and server** (`Wire`). This module
  connects the client's checks and property names to the server's.

Shared pieces:

- `Seqs`: `filter` and `find` with their characterisations.
- `JsText`: the JavaScript string built-ins the code uses (`trim`,
  `split`, `join`, `includes`, `toLowerCase`, `replace(/\s+/g, '_')`,
  number rendering).
- `Profile`: the profile record.

### How values are represented

- **Profile properties.** Each string property is
  `Undefined | Null | Str(s)`. This makes JavaScript truthiness
  explicit. It also makes the record the cache appends after a creation
  representable: that record is `{id, message}`, with no name at all.
- **Absent lists.** A list that may be missing is an `Option`.
- **Exceptions.** A JavaScript evaluation that may throw a `TypeError`
  is an `Eval<T>`.
- **The server's data.** Request bodies are untyped JSON maps, and a
  stored row maps each of the 24 insert columns to a JSON value.
- **Outside inputs as parameters:**
  - what the network answers;
  - whether the database fails;
  - the clock;
  - whether the clipboard accepted the link;
  - whether the confirmation dialog was accepted.

### Where the code and its description differ

The model follows the code in each case:

- **The LinkedIn address.** The console writes it under `linkedIn`, but
  the server reads `linkedin`. `Wire.LinkedInNotStored` proves that the
  address is dropped.
- **The photo check.** The cache checks only the name and the
  profession. The server also requires the photo.
- **The update route.** It replaces every column with whatever the body
  carries. There is no partial update.
- **The record appended after a creation.** The record the cache
  appends is the server's `{id, message}` reply, not the profile that
  was sent. Searching the list then throws (`Admin.CreatedEntryBreaksSearch`),
  and so does downloading that entry (`Portfolio.SaveCreatedReplyThrows`).

## Model

| member | source | states |
|---|---|---|
| Seqs.Filter | src/pages/Admin.tsx:38-42 | `filter` never lengthens the list and keeps only elements that pass the predicate |
| Seqs.FilterMembers | src/contexts/UserContext.tsx:119 | every kept element comes from the input, and every input element that passes is kept |
| Seqs.FilterIsSubsequence | src/pages/Admin.tsx:88-96 | the filtered list is the input read at strictly ascending positions, exactly the positions whose element passes |
| Seqs.FilterConcat | src/components/UserCard.tsx:28 | filtering a concatenation is concatenating the filtered parts |
| Seqs.FilterKeepsAll | src/pages/Admin.tsx:645 | a filter returns its input unchanged if and only if every element passes |
| Seqs.FindIndex | src/contexts/UserContext.tsx:137 | the first position whose element passes, or none exactly when no element passes |
| JsText.TrimStart | src/pages/Admin.tsx:645 | the result is the suffix left after a run of whitespace, and it does not start with whitespace |
| JsText.TrimEnd | src/pages/Admin.tsx:645 | the result is the prefix before a run of whitespace, and it does not end with whitespace |
| JsText.TrimFixpoint | src/pages/Admin.tsx:645 | a string is its own trim if and only if it is empty or starts and ends with a non-space character |
| JsText.TrimAfterSpace | src/pages/Admin.tsx:642 | whitespace put in front of a trimmed non-empty item disappears when the item is trimmed again |
| JsText.TrimStartSkips | src/pages/Admin.tsx:645 | `trimStart` removes exactly a leading whitespace run |
| JsText.Lower | src/pages/Admin.tsx:39-41 | lower-casing keeps the length, turns each upper-case letter into its lower-case partner, keeps every other character, and leaves no upper-case letter |
| JsText.LowerIdempotent | src/pages/Admin.tsx:39-41 | lower-casing an already lower-cased text changes nothing |
| JsText.IncludesEmpty | src/pages/Admin.tsx:39 | every string includes the empty search term |
| JsText.Split | src/pages/Admin.tsx:645 | splitting on a character always yields at least one piece |
| JsText.SplitWithout | src/pages/Admin.tsx:645 | a string without the separator splits into itself alone |
| JsText.SplitAfter | src/pages/Admin.tsx:645 | a separator-free piece followed by the separator splits off as the first piece |
| JsText.SplitJoin | src/pages/Admin.tsx:642 | splitting on a character undoes joining on it when no piece contains it |
| JsText.JoinPadded | src/pages/Admin.tsx:642 | joining on a comma plus padding is joining, on the comma alone, the items with the padding moved in front of every later item |
| JsText.JoinFirst | src/pages/Admin.tsx:642 | putting a prefix on the first item puts it in front of the joined text |
| JsText.JoinConcat | src/components/UserCard.tsx:28 | joining two non-empty lists is joining each and putting the separator between them |
| JsText.ReplaceSpaceRuns | src/components/UserCard.tsx:35 | the result contains no whitespace, is never longer than the input, and is the input itself when it had none |
| JsText.SpaceRunCollapses | src/components/UserCard.tsx:35 | a whole run of whitespace becomes a single underscore |
| JsText.ReplaceSpaceRunsIdempotent | src/components/UserCard.tsx:35 | applying the replacement twice changes nothing more |
| JsText.NatToString | src/pages/Portfolio.tsx:40 | a number renders as at least one decimal digit and nothing else |
| JsText.NatToStringRoundTrip | src/pages/Portfolio.tsx:40 | reading the rendered digits back gives the number |
| Profile.CreatedResponseBody | src/routes.js:82 | the creation reply seen as a profile carries only the new id: no name and no profession |
| Profile.EmptyForm | src/pages/Admin.tsx:20-22 | the blank form has no id and no required field filled in, and each of its nine lists is present and empty |
| UserCard.KeepNonEmptyIsFilter | src/components/UserCard.tsx:28 | `filter(Boolean)` on strings is the filter that drops empty strings |
| UserCard.KeepConcat | src/components/UserCard.tsx:28 | dropping empty lines distributes over concatenation |
| UserCard.KeepOne | src/components/UserCard.tsx:28 | one line survives exactly when it is non-empty |
| UserCard.KeepFive | src/components/UserCard.tsx:22-28 | the five optional entries are filtered one by one |
| UserCard.IfPresent | src/components/UserCard.tsx:22-26 | an optional entry gives one line when its property is truthy and none otherwise |
| UserCard.CardLines | src/components/UserCard.tsx:17-27 | the card has the four header lines, one line per truthy contact property, and ends with `END:VCARD` |
| UserCard.KeepHeader | src/components/UserCard.tsx:18-21 | the four header lines are never dropped, even when name or profession is missing |
| UserCard.KeepOptLine | src/components/UserCard.tsx:22-26 | a conditional entry survives the filter exactly when its property is truthy |
| UserCard.KeepOptionalLines | src/components/UserCard.tsx:22-26 | the filtered optional entries are the ORG, ADR, EMAIL, TEL and URL lines of the truthy properties, in that order |
| UserCard.CardEntriesLayout | src/components/UserCard.tsx:17-28 | the filtered literal is exactly the card's line layout, of length five plus the number of truthy contact properties |
| UserCard.JoinFour | src/components/UserCard.tsx:17-28 | joining the four header lines puts the separator between each pair |
| UserCard.JoinFrame | src/components/UserCard.tsx:28 | a joined text starts with its joined head and the separator, and ends with the separator and its last line |
| UserCard.CardTextIsJoinedLines | src/components/UserCard.tsx:28 | the card text is its lines joined with line feeds |
| UserCard.CardTextFrame | src/components/UserCard.tsx:17-28 | the card text starts with the vCard header and the formatted name, and ends with a line feed and `END:VCARD` |
| UserCard.PresentOnOneLine | src/components/UserCard.tsx:22-26 | an optional line built from a one-line value contains no line feed |
| UserCard.HeaderOnOneLine | src/components/UserCard.tsx:18-21 | the header lines contain no line feed when name and profession have none |
| UserCard.CardTextLines | src/components/UserCard.tsx:28 | when no value contains a line feed, splitting the text at line feeds gives back exactly the card's lines |
| UserCard.CardLinesOnOneLine | src/components/UserCard.tsx:15-28 | when no value holds a line feed, no emitted line does |
| UserCard.MinimalCardHasFiveLines | src/components/UserCard.tsx:17-28 | a profile without contact properties gives exactly the five fixed lines |
| UserCard.VcfFilename | src/components/UserCard.tsx:35 | the file name ends in `.vcf`, is preceded by the name with every whitespace run turned into an underscore, contains no whitespace, and keeps a whitespace-free name as it is |
| UserCard.SaveContact | src/components/UserCard.tsx:15-35 | a download happens exactly when the name is a string, and otherwise the action throws a `TypeError`; the download carries the card text and the file name |
| UserCard.WebsiteHrefNormal | src/components/UserCard.tsx:115 | the link always starts with `http`, equals the website exactly when that already does, and applying the rule twice changes nothing more |
| Portfolio.ListPresent | src/pages/Portfolio.tsx:39-44 | a list note gives one line when the list is present, even when it is empty |
| Portfolio.BodyLines | src/pages/Portfolio.tsx:29-44 | the body has one line per truthy contact property and per extra entry |
| Portfolio.PortfolioLines | src/pages/Portfolio.tsx:24-45 | the portfolio card has the four header lines, its body lines, and ends with `END:VCARD` |
| Portfolio.KeepListNote | src/pages/Portfolio.tsx:39-44 | a list note survives the filter exactly when the list is present |
| Portfolio.KeepYearsNote | src/pages/Portfolio.tsx:40 | the experience note survives exactly when the years are present and non-zero |
| Portfolio.KeepSocialLines | src/pages/Portfolio.tsx:34-38 | the filtered bio and social entries are the lines of the truthy properties, in order |
| Portfolio.KeepSix | src/pages/Portfolio.tsx:39-44 | the six note entries are filtered one by one |
| Portfolio.KeepNoteLines | src/pages/Portfolio.tsx:39-44 | the filtered notes are those of the present lists and non-zero years, in order |
| Portfolio.KeepParts | src/pages/Portfolio.tsx:24-46 | the filter works part by part and never drops the closing line |
| Portfolio.PortfolioEntriesLayout | src/pages/Portfolio.tsx:24-46 | the filtered literal is exactly the portfolio's line layout, with its length counted |
| Portfolio.PortfolioTextFrame | src/pages/Portfolio.tsx:24-46 | the text starts with the vCard header and the name, and ends with a line feed and `END:VCARD` |
| Portfolio.PortfolioTextIsJoinedLines | src/pages/Portfolio.tsx:46 | the portfolio text is its lines joined with line feeds |
| Portfolio.LiteralPrefix | src/pages/Portfolio.tsx:24-45 | a literal without its closing line is a prefix of the literal with extra parts inserted before it |
| Portfolio.CardIsPrefixOfPortfolio | src/pages/Portfolio.tsx:24-33 | the card's entries, apart from the closing line, begin the portfolio's entries, both before and after filtering |
| Portfolio.SameTextWithoutExtras | src/pages/Portfolio.tsx:24-46 | without bio, social links, lists or years the portfolio card is the list card; with any of them it is strictly longer |
| Portfolio.EmptySkillsStillNoted | src/pages/Portfolio.tsx:39 | an empty skills list still gives the note `Compétences: ` with nothing after it |
| Portfolio.ZeroYearsAsAbsent | src/pages/Portfolio.tsx:40 | zero years of experience give the same card as no years at all |
| Portfolio.HandleSaveContact | src/pages/Portfolio.tsx:22-52 | nothing happens without a profile; a found profile downloads exactly when its name is a string, and otherwise throws a `TypeError`; the download carries the portfolio text and the file name |
| Portfolio.SaveCreatedReplyThrows | src/pages/Portfolio.tsx:52 | downloading the record appended after a creation throws, although its text would start `FN:undefined` |
| UserContext.SettleStep | src/contexts/UserContext.tsx:26-51 | an attempt that neither returns an array nor gets a 404 leaves the result to the remaining attempts |
| UserContext.FetchSettles | src/contexts/UserContext.tsx:25-53 | the retry loop's result is the reference one: the first array or 404 ends the load, and otherwise every attempt is made and the list ends empty |
| UserContext.FetchUsersThreeAttempts | src/contexts/UserContext.tsx:25-53 | the default load makes one to three attempts; earlier attempts were not decisive; the list is the last attempt's array, or empty when that attempt did not return an array |
| UserContext.Lookup | src/contexts/UserContext.tsx:137 | the lookup returns a cached profile with the id, and none exactly when no cached profile has it |
| UserContext.ReplaceById | src/contexts/UserContext.tsx:94-96 | every entry with the id becomes the server's answer, all others are unchanged, and the length is kept |
| UserContext.LookupAfterReplace | src/contexts/UserContext.tsx:94-96 | after an update, the id finds the server's answer exactly when it was cached before |
| UserContext.RemoveByIdKeepsOthers | src/contexts/UserContext.tsx:119 | a delete removes every entry with the id, keeps every other entry, and the id is no longer found |
| UserContext.RemoveByIdSubsequence | src/contexts/UserContext.tsx:119 | the entries left are the old ones at ascending positions, so their order is kept |
| UserContext.LookupAfterAppend | src/contexts/UserContext.tsx:70 | after an append, a lookup finds what it found before, or else the appended entry when that entry has the id |
| UserContext.UserCache.constructor | src/contexts/UserContext.tsx:21 | the cache starts empty |
| UserContext.UserCache.FetchUsers | src/contexts/UserContext.tsx:25-53 | the loop leaves the list and the attempt count that the reference function gives |
| UserContext.UserCache.AddUser | src/contexts/UserContext.tsx:58-87 | without a name or profession nothing is sent and the call fails; on success the answer is appended and its id returned; on failure the list is unchanged |
| UserContext.UserCache.UpdateUser | src/contexts/UserContext.tsx:90-112 | on success every entry with the id is replaced by the answer; on failure the list is unchanged and the call fails with the status |
| UserContext.UserCache.DeleteUser | src/contexts/UserContext.tsx:115-133 | on success every entry with the id is removed; on failure the list is unchanged and the call fails with the status |
| UserContext.UserCache.GetUserById | src/contexts/UserContext.tsx:136-138 | returns the first cached profile with the id (no earlier one has it), and none exactly when no cached profile has it |
| Admin.EscapeQuotes | src/pages/Admin.tsx:71 | escaping never shortens an item and leaves an item without double quotes unchanged |
| Admin.FormatArrayForPostgres | src/pages/Admin.tsx:69-72 | the literal is `{}` exactly when the list is missing or empty; it always starts with `{` and ends with `}` |
| Admin.ReadQuoted | src/pages/Admin.tsx:71 | reading a quoted element always consumes input |
| Admin.ReadPlain | src/pages/Admin.tsx:71 | an ordinary character is read as itself |
| Admin.ReadBackslashed | src/pages/Admin.tsx:71 | a backslashed character is read as the character |
| Admin.ReadEscapedStep | src/pages/Admin.tsx:71 | one character of an escaped item, a quote included, is read back ahead of the rest of the item |
| Admin.ReadEscaped | src/pages/Admin.tsx:71 | an item without backslashes, once its quotes are escaped, reads back as itself up to the closing quote |
| Admin.ReadLast | src/pages/Admin.tsx:71 | a quoted element followed by `}` ends the list |
| Admin.ReadNext | src/pages/Admin.tsx:71 | a quoted element followed by a comma is followed by the rest of the list |
| Admin.ReadQuotedAll | src/pages/Admin.tsx:71 | the comma-joined quoted items and the closing brace read back as the items |
| Admin.FormatThenParse | src/pages/Admin.tsx:69-72 | the store reads the literal back as the very list that was sent, for items without backslashes (double quotes included) |
| Admin.BackslashDropped | src/pages/Admin.tsx:71 | an item containing a backslash is not escaped, so the store reads `a\b` as `ab` |
| Admin.BackslashItemFormatted | src/pages/Admin.tsx:69-72 | the item `a\b` is sent as the literal `{"a\b"}`, its backslash not escaped |
| Admin.BackslashItemRead | src/pages/Admin.tsx:69-72 | PostgreSQL reads the element body `a\b"}` as `ab`, the backslash escaping the `b` |
| Admin.TrailingBackslashUnreadable | src/pages/Admin.tsx:71 | an item ending in a backslash makes the literal unreadable |
| Admin.ParseListInput | src/pages/Admin.tsx:645 | an empty input gives the empty list, and no item of the result is empty |
| Admin.TrimTwice | src/pages/Admin.tsx:645 | trimming twice is trimming once |
| Admin.SplitPiecesExclude | src/pages/Admin.tsx:645 | no piece of a split contains the separator |
| Admin.ParsedItems | src/pages/Admin.tsx:645 | every parsed item is non-empty, already trimmed and free of commas |
| Admin.TrimKeepsExcluded | src/pages/Admin.tsx:645 | trimming a piece without commas gives a text that is its own trim and still has no comma |
| Admin.DisplayedPieces | src/pages/Admin.tsx:642 | the displayed list splits at commas into the items, with every later item preceded by one space |
| Admin.TrimPieces | src/pages/Admin.tsx:645 | trimming those pieces gives back trimmed non-empty items |
| Admin.PieceTrimmed | src/pages/Admin.tsx:642-645 | each displayed piece, the first item or a later item behind its space, trims back to that item |
| Admin.TrimSpaced | src/pages/Admin.tsx:642-645 | the space the display puts after a comma is trimmed away again |
| Admin.DisplayThenParse | src/pages/Admin.tsx:642-645 | parsing the displayed text gives back the list, for non-empty, trimmed, comma-free items |
| Admin.KeepFilled | src/pages/Admin.tsx:88-92 | only entries with a non-blank trim are kept, and a missing list gives the empty list |
| Admin.KeepFilledSelects | src/pages/Admin.tsx:88-92 | the kept entries are the input's non-blank ones, in order, and no others |
| Admin.ParsedItemsAreKept | src/pages/Admin.tsx:88 | a list typed into the form loses nothing to the blank filter |
| Admin.FilterTitled | src/pages/Admin.tsx:93-96 | the filter returns exactly when every entry has the key, and then keeps the entries whose key is non-blank |
| Admin.KeepTitled | src/pages/Admin.tsx:93-96 | a missing list gives the empty list; otherwise the filter throws exactly when some entry lacks the key |
| Admin.KeepTitledSelects | src/pages/Admin.tsx:93-96 | the kept entries are the input's entries with a non-blank key, in order |
| Admin.AddPayload | src/pages/Admin.tsx:86-110 | building the payload throws exactly when a structured entry lacks its key; otherwise it keeps the form's own properties, sends each of the five string lists as the PostgreSQL literal of its non-empty items, and each of the four structured lists as the JSON of its entries with a truthy `title` (`degree` for education) |
| Admin.UpdatePayload | src/pages/Admin.tsx:160-171 | the update payload keeps the form's own properties and filters nothing: skills, specializations and languages go out as their PostgreSQL literals (a missing list as `{}`), certifications and awards as literals with a missing list read as empty, and the four structured lists as JSON with a missing list read as empty |
| Admin.KeepFilledNoBackslash | src/pages/Admin.tsx:88-92 | the blank filter keeps a list free of backslashes |
| Admin.AddPayloadReadsBack | src/pages/Admin.tsx:86-105 | each of the five list literals a new profile sends reads back as the form's non-blank entries |
| Admin.CleanListKept | src/pages/Admin.tsx:88-92 | a present list without blank entries passes the filter unchanged |
| Admin.CleanRecordsKept | src/pages/Admin.tsx:93-96 | a structured list whose entries all have a non-blank key passes the filter unchanged |
| Admin.CleanFormPayloadsAgree | src/pages/Admin.tsx:160-171 | for a form without blank entries, the add and update handlers build the same payload |
| Admin.MatchesSearch | src/pages/Admin.tsx:38-42 | the callback throws exactly when the name is not a string, or when the name does not match and the profession is not a string; when it returns, it says whether the term occurs in name, profession or company |
| Admin.SearchAll | src/pages/Admin.tsx:38-42 | the search returns exactly when every callback returns, and then keeps the matching profiles |
| Admin.FilteredUsers | src/pages/Admin.tsx:37-43 | a list that is not an array shows nothing |
| Admin.SearchSelects | src/pages/Admin.tsx:37-43 | the shown profiles are the matching ones, in their cached order |
| Admin.EmptyTermListsAll | src/pages/Admin.tsx:37-43 | an empty search term shows every profile, provided every name is a string, and throws otherwise |
| Admin.CreatedEntryBreaksSearch | src/pages/Admin.tsx:38-42 | a cached creation reply makes every search throw |
| Admin.AddItem | src/pages/Admin.tsx:253-256 | one blank entry is appended and the others are kept |
| Admin.UpdateItem | src/pages/Admin.tsx:258-262 | only the edited field of the chosen entry changes; every other entry and field is kept |
| Admin.RemoveItem | src/pages/Admin.tsx:264-266 | the entry at the index is removed; an index out of range leaves the list unchanged |
| Admin.RemoveAdded | src/pages/Admin.tsx:253-266 | removing the entry just added restores the list |
| Admin.AddItemKeepsKey | src/pages/Admin.tsx:253-256 | adding an entry whose fields include the key keeps every entry keyed, so the payload filter cannot throw |
| Admin.RemoveItemKeepsKey | src/pages/Admin.tsx:264-266 | removing an entry keeps every entry keyed |
| Admin.AdminDashboard.constructor | src/pages/Admin.tsx:18-23 | the dashboard opens on the overview with an empty search, the blank form and nothing being edited |
| Admin.AdminDashboard.HandleAddUser | src/pages/Admin.tsx:74-144 | the gate alerts without a request; a missing key throws before any request; a failed add changes nothing; a successful add appends the answer and resets the form, and opens the list only when the link was copied |
| Admin.AdminDashboard.HandleUpdateUser | src/pages/Admin.tsx:146-194 | nothing without a profile being edited; the gate alerts; on success the answer replaces the entries with the id, and the edit closes and the list opens |
| Admin.AdminDashboard.HandleDeleteUser | src/pages/Admin.tsx:196-223 | nothing unless confirmed; on success the entries with the id are removed; on failure the list is unchanged |
| Admin.AdminDashboard.HandleEditUser | src/pages/Admin.tsx:225-228 | the profile is opened in the edit tab and nothing else changes |
| Routes.EveryColumnListed | src/routes.js:41-50 | the insert names every column |
| Routes.InsertValue | src/routes.js:53-78 | a truthy property is stored as sent; a falsy one becomes `[]` for a list column and `null` otherwise, `null` for zero years included |
| Routes.Inserted | src/routes.js:41-50 | a created row gets the current time as both its creation and its update time |
| Routes.Replaced | src/routes.js:100-119 | an updated row keeps its creation time and gets the current time as its update time |
| Routes.RowsComplete | src/routes.js:41-50 | created and updated rows have a value for every column |
| Routes.TruthyStored | src/routes.js:53-78 | a truthy property is stored exactly as sent |
| Routes.FalsyStored | src/routes.js:56-78 | a falsy optional property is stored as `[]` for a list column and `null` otherwise |
| Routes.ReplacedIsFullReplace | src/routes.js:92-119 | an update stores every column the body carries as sent and sets every other column to `null` |
| Routes.ZeroYearsStoredNull | src/routes.js:64 | zero years of experience is stored as `null` |
| Routes.AbsentLinkedinStoredNull | src/routes.js:73 | a falsy `linkedin` property leaves the LinkedIn column `null` |
| Routes.SentSkillsStored | src/routes.js:63 | a truthy `skills` property is stored as sent |
| Routes.NewCard | src/routes.js:170-176 | any body is accepted: each of the three columns holds the property as sent, or `null` when the body lacks it, and no update time is set |
| Routes.Api.constructor | src/routes.js:4 | the tables start empty |
| Routes.Api.ListUsers | src/routes.js:7-15 | answers 200 with the whole users table, or 500 on a store fault |
| Routes.Api.GetUser | src/routes.js:18-30 | answers 200 with the row, 404 for an unknown id, or 500 on a store fault |
| Routes.Api.CreateUser | src/routes.js:33-87 | answers 400 without name, profession and photo; on success answers 201 with a fresh id and inserts the row under it; on a store fault answers 500; a failed request changes nothing |
| Routes.Api.UpdateUser | src/routes.js:90-124 | answers 404 for an unknown id and changes nothing; otherwise stores the fully replaced row and answers 200 with it; a store fault answers 500 and changes nothing |
| Routes.Api.DeleteUser | src/routes.js:127-139 | answers 204 and removes the row, or answers 404 for an unknown id and changes nothing |
| Routes.Api.ListCards | src/routes.js:144-152 | answers 200 with the whole cards table, or 500 on a store fault |
| Routes.Api.GetCard | src/routes.js:155-167 | answers 200 with the card, 404 for an unknown id, or 500 on a store fault |
| Routes.Api.CreateCard | src/routes.js:170-182 | answers 201 with a fresh id and the stored card, or 500 on a store fault without storing anything |
| Routes.Api.UpdateCard | src/routes.js:185-201 | answers 404 for an unknown id and changes nothing; otherwise rewrites the three columns, stamps the time and answers 200 |
| Routes.Api.DeleteCard | src/routes.js:204-216 | answers 204 and removes the card, or answers 404 for an unknown id and changes nothing |
| Routes.CreateReadDelete | src/routes.js:33-139 | creating, reading, deleting, then reading again answers 201, 200, 204 and 404, and leaves the users table as it was |
| Wire.FieldJson | src/pages/Admin.tsx:99-110 | an undefined property is left out of the body, `null` is sent as JSON `null`, and a string is sent as a JSON string |
| Wire.PayloadBody | src/pages/Admin.tsx:99-110 | the body carries each payload property under its own name |
| Wire.BodyProperty | src/pages/Admin.tsx:99-110 | each named property of the body is the payload's |
| Wire.ConsoleGateMeetsServerCheck | src/routes.js:37-39 | a payload from a form that passes the console's gate passes the server's required-field check |
| Wire.PhotoCheckedOnlyByServer | src/routes.js:37-39 | a payload with name and profession but no photo passes the cache's check and is refused by the server |
| Wire.LinkedInNotStored | src/routes.js:73 | a profile created from the console form is stored without a LinkedIn address, whatever `linkedIn` holds |
| Wire.SkillsStoredAsSent | src/routes.js:63 | a new profile's skills are stored as the literal the console built |

## Left out

- The rendered pages (JSX, styling, animations), the toasts and alert
  dialogs, the contact modal, and the Cloudinary image upload are not
  modelled. They display things and decide nothing about the data.
- The browser is not modelled. That covers the Blob, the object URL and
  the clicked link behind a download. A download is a value carrying its
  text and its file name.
- The clipboard write is a boolean parameter that says whether it
  succeeded. The confirmation dialog before a delete is one too.
- The network is not modelled. The server's answer to each request is a
  parameter: a reply, or a failure with its status. So is each attempt
  of the initial load. The 500-millisecond delay between attempts is
  left out.
- `JSON.stringify` of the structured lists is not modelled. Its output
  depends on key order. The payload keeps the lists as they are, and the
  text sent is a parameter `encode` of the wire lemmas.
- The database engine is not modelled:
  - tables are answered as maps from id to row; the order of the rows
    `SELECT *` returns is not modelled;
  - PostgreSQL's conversion of parameters to column types is not
    modelled;
  - the table defaults of the card columns other than the three the
    routes write are not modelled;
  - a store fault is a boolean parameter.
- Path ids are modelled as numbers. A path id that is not an integer
  (which PostgreSQL refuses with a 500) is not modelled.
- The client compares ids with `===`. An id that is a string on one
  side and a number on the other is not modelled: ids are one type
  throughout.
- An id drawn by a failed insert is not modelled. The model draws a
  fresh id only for a stored row.
- The `message` property of the creation reply is not part of the
  profile record. The record has no place for it, and nothing reads it.
- `toLowerCase` is modelled for the ASCII letters only. Unicode case
  mapping is not modelled.
- Numbers are integers. NaN and fractional years of experience are not
  modelled.
- The console's copy-link and retry buttons, the loading and error flags
  of the dashboard, and the editor's rendering of each field are not
  modelled. They read the state but do not change the profiles.
- Concurrency is not modelled. Every handler runs to completion before
  the next one starts.
- Admin.UpdateItem: requires the index to be inside the list. The editor
  only calls it for an entry it shows. The array copy is modelled.
- UserContext.UserCache.FetchUsers: requires one supplied outcome per
  possible attempt.
- Admin.FormatThenParse: the round trip is proved only for items without
  backslashes. Items with backslashes do not survive it, as
  `Admin.BackslashDropped` and `Admin.TrailingBackslashUnreadable` show.
- Admin.DisplayThenParse: the round trip is proved only for items that
  are non-empty, trimmed and free of commas. Other items are changed by
  the parse.
