# Sekha conversation import, modelled in Dafny

This project models the conversation import pipeline of the Sekha Obsidian plugin
(`main.ts`). The plugin fetches conversations from the Sekha memory service and turns each
one into a Markdown note in the vault. The model covers four pieces:

- **Renderer** (`formatConversation`). A conversation becomes a note with three parts:
  - a `---` front-matter block holding `label:`, `created:` and `sekha_id:`;
  - a `# label` heading;
  - the transcript, where each message is written `**role**: content` and messages are
    separated by a blank line.

  Nothing is escaped.
- **File name**. A note is stored at `folder/label_XXXXXXXX.md`. The `XXXXXXXX` part is
  `id.substring(0, 8)` of the id the import was *asked* for.
- **Import orchestration** (`importConversation`, `importByLabel`).
  - The memory service is an oracle. `getConversation` and `search` either resolve with a
    value or reject with a message.
  - The vault is a set of folders plus a map from path to note text. Its `createFolder`
    and `create` calls are oracles that may reject depending on the vault's state.
  - Every call records its effects in order: service calls, vault calls and notices.
  - A batch is a sequential fold over the search hits.
- **Settings load**. `Object.assign({}, DEFAULT_SETTINGS, data)` is modelled as a
  field-wise overlay of optional saved fields on the defaults.

Modules, leaf first:

- `Wrappers` (wrappers.dfy): `Option`, `Result` and `Outcome`.
- `Text` (text.dfy): the JavaScript built-ins the code relies on:
  - `Array.prototype.join`;
  - `String.prototype.substring`;
  - decimal rendering of a count;
  - line and prefix readers used by the note parser.
- `PluginSettings` (settings.dfy): the settings, their defaults and the load merge.
- `Render` (render.dfy): `formatConversation`, plus a reader `ParseNote` that serves as
  its partner.
- `Paths` (paths.dfy): the file-name expression.
- `Import` (import.dfy): `importConversation`, `importByLabel`, and loop-based methods
  that follow the source's `for … of` loop.

Where the code and the repository's other material disagree, the model follows the code:

- **The filename test expects nine id characters.** The test at
  tests/test_commands.ts:66-80 expects the name built for id `conv-12345678-abcd` to
  contain `My Test_conv-1234`, which takes nine characters of the id.
  - `substring(0, 8)` yields `conv-123`, so the code produces
    `Sekha Conversations/My Test_conv-123.md`.
  - `Paths.ImportPathExample` proves the name the code builds.
  - `Paths.ImportPathLacksNineCharacterPrefix` proves that this name does not contain
    the text the test expects.
  - The model keeps the code's eight characters.
- **No success or failure counts.** The batch reports no such counts. Its closing notice
  gives `results.length`, the number of hits, whatever happened to each import.
- **Every folder error is swallowed.** `createFolder` errors are dropped whatever their
  cause, not only "folder already exists".
- **Not checked by the code:**
  - a non-empty requested id;
  - a search result no longer than the limit of 50.

  The model requires neither.

## Model

| member | source | states |
|---|---|---|
| PluginSettings.LoadSettings | main.ts:139-141 | each setting is the saved value when one is present and its default otherwise; loading nothing gives the defaults |
| PluginSettings.LoadEmptyIsDefault | main.ts:10-14 | loading nothing, or an object with no fields, gives exactly `http://localhost:8080`, `""`, `Sekha Conversations` |
| PluginSettings.LoadOnlyApiKey | tests/test_extension.ts:96-106 | saved data holding only an API key changes only the API key |
| PluginSettings.Saved | main.ts:143-145 | saving the settings writes every field |
| PluginSettings.LoadSavedRoundTrip | main.ts:139-145 | loading the data that saving wrote gives back the same settings |
| Text.NatToString | main.ts:82 | a count is rendered as at least one decimal digit, with no leading zero |
| Text.ParseNatToString | main.ts:82 | reading the rendered count back gives the count |
| Text.NatToStringInjective | main.ts:82 | different counts give different texts |
| Text.Join | main.ts:97 | `join`: the empty list joins to the empty string and a single part joins to itself, so a separator only ever stands between two parts |
| Text.JoinLength | main.ts:97 | the join's length is the total length of the parts plus one separator for each neighbouring pair |
| Text.JoinConcat | main.ts:97 | joining a concatenation gives the two joins with one separator between them |
| Text.JoinAt | main.ts:97 | each part sits in the join between the join of the earlier parts and the join of the later parts, with separators only where there are neighbours |
| Text.JsSubstring | main.ts:66 | `substring` with bounds inside the string is the slice between them, and the bounds are swapped when reversed |
| Text.JsSubstringSymmetric | main.ts:66 | the two bounds of `substring` can be exchanged |
| Render.RenderMessage | main.ts:97 | a message is written as its role between `**` markers, then `**: `, then its content verbatim: nothing is escaped and exactly six marker characters are added |
| Render.Transcript | main.ts:97 | the transcript is empty exactly when there are no messages, and a single message is its own transcript with no separator |
| Render.FormatConversation | main.ts:88-98 | the note is the header, then the transcript, then one closing line feed. The header holds the front matter, a blank line, the heading and a blank line, and depends only on the label, timestamp and id. The transcript depends only on the messages |
| Render.NoteParts | main.ts:88-98 | a note is its header, then the transcript, then one closing line feed |
| Render.FrontMatterJoined | main.ts:89-92 | the fence line and the `label:`, `created:` and `sekha_id:` lines, joined by line feeds, make the opening of the note |
| Render.BodyJoined | main.ts:93-98 | the closing fence, the blank line, `# label`, the blank line and the transcript, joined by line feeds, make the rest of the note |
| Render.NoteIsLines | main.ts:88-98 | the filled template equals its nine lines joined by line feeds, followed by a line feed |
| Render.FormatIsLines | main.ts:88-98 | a rendered conversation is fence, `label:`, `created:`, `sekha_id:`, fence, blank line, `# label`, blank line and transcript, each ended by a line feed |
| Render.TranscriptAt | main.ts:97 | message `i` appears as `**role**: content`, unescaped, between the transcript of the earlier messages and that of the later ones, with a blank line on each side that has neighbours |
| Render.TranscriptSnoc | main.ts:97 | appending a message appends one blank line and its rendering; with no earlier messages only the rendering is added |
| Render.TranscriptPieceInNote | main.ts:88-98 | a piece of the transcript appears in the note at its transcript position plus the header's length |
| Render.NoteAroundMessage | main.ts:88-98 | the note around message `i` is the header, the transcript of the earlier messages, the message, the transcript of the later messages and the closing line feed |
| Render.MessageInNote | main.ts:88-98 | every message appears verbatim in the rendered note, right after the header and all earlier messages |
| Render.EmptyConversationNote | tests/test_commands.ts:170-182 | with no messages the note is the header and one line feed, so it ends in three line feeds |
| Render.BoldMarkersIffMessages | tests/test_commands.ts:170-182 | if the label, timestamp and id contain no `*`, the note contains a `*` exactly when there is at least one message |
| Render.ParseNoteRoundTrip | main.ts:89-98 | reading a filled template back recovers its label, timestamp, id and transcript, provided the three fields contain no line feed |
| Render.ParseFormatRoundTrip | main.ts:88-98 | reading a rendered conversation back recovers its label, timestamp, id and transcript, provided those fields contain no line feed |
| Paths.IdPrefix | main.ts:66 | the id part of the name is the first `min(8, length)` characters of the id; an id of at most 8 characters is kept whole |
| Paths.ImportPath | main.ts:66 | the path starts with `folder/`, ends with `.md`, and its length accounts for label, separators and id prefix |
| Paths.ImportPathExample | tests/test_commands.ts:66-80 | id `conv-12345678-abcd` with label `My Test` gives `Sekha Conversations/My Test_conv-123.md` |
| Paths.ImportPathLacksNineCharacterPrefix | tests/test_commands.ts:79 | the name built for the test's id does not contain the `My Test_conv-1234` the test expects |
| Paths.ImportPathCollision | main.ts:66 | with folder and label fixed, two requested ids give the same path exactly when their first eight characters agree |
| Import.AfterCreateFolder | main.ts:64 | `createFolder` leaves the notes unchanged and at most adds the import folder |
| Import.ImportConversation | main.ts:60-74 | exactly one fetch and one notice. A failed fetch gives only its failure notice and leaves the vault unchanged. A successful fetch, whatever `createFolder` did, is followed by exactly one `create` of the rendered note at the path built from the requested id. The note is stored with an `Imported:` notice when `create` resolves; otherwise the vault's notes are unchanged and a failure notice carries the error |
| Import.ImportEach | main.ts:79-81 | the loop fetches every hit exactly once, in result order, whatever happens to the others |
| Import.ImportEachNotices | main.ts:79-81 | the loop shows exactly one notice per hit |
| Import.ImportEachCreations | main.ts:79-81 | the loop's `create` calls are exactly, in result order, one per hit whose fetch succeeds. Each is at the path built from that hit's id and holds that conversation rendered; a hit whose fetch fails gets none |
| Import.ImportEachTrace | main.ts:79-81 | the loop fetches every hit once in result order and shows one notice per hit. Its `create` calls are exactly the rendered notes of the hits the service returns a conversation for, at the paths built from their ids |
| Import.ImportEachSnoc | main.ts:79-81 | one more turn of the loop imports the next hit on the vault the earlier hits left, and appends its effects |
| Import.ImportByLabel | main.ts:76-86 | the batch starts with `search(label, 50)`. A failed search gives one failure notice and no fetch. Otherwise every hit is fetched in order, and there is one notice per hit plus a closing notice that reports the number of hits. The `create` calls are exactly the rendered notes of the hits that could be fetched |
| Import.RunImportEach | main.ts:79-81 | the source's loop, which threads the vault through the hits, gives the same result as the fold |
| Import.RunImportByLabel | main.ts:76-86 | the source's sequence of search, loop and closing notice. A failed search shows its error and leaves the vault unchanged. Otherwise the search comes first, every hit is fetched once in result order, and there is one notice per hit plus a closing one. The `create` calls are exactly the rendered notes of the hits that could be fetched, and the last notice reports the number of hits |
| Import.ImportEachAppend | main.ts:79-81 | importing `a + b` is importing `a`, then importing `b` into the vault that `a` left |
| Import.ImportEachItem | main.ts:79-81 | the effects of hit `i` are those of importing it alone into the vault the earlier hits left, and the later hits follow whatever its outcome |
| Import.BatchNoticeCountsHits | main.ts:82 | the closing notice depends only on the number of hits, not on how many imports succeeded |
| Import.ThreeHitsAllResolve | tests/test_commands.ts:85-104 | the batch test as written: three hits, and every fetch resolving to the same conversation. The search asks for `Project:AI` with limit 50, all three hits are fetched in order, `create` is called three times with that conversation's note at the paths built from `conv-1`, `conv-2` and `conv-3`, and the closing notice says 3 |
| Import.ThreeHitsSecondFails | tests/test_commands.ts:85-104 | a variation of the batch test, not in the test itself: with the test's three hits, and the second fetch failing, all three are still fetched in order. `create` is called twice, once for the first and once for the third conversation, each rendered at the path built from its hit's id, and the closing notice says 3 |
| Import.EmptySearchFetchesNothing | tests/test_commands.ts:106-113 | with no hits the batch makes no fetch and no `create` call, leaves the vault unchanged, and reports 0 |
| Import.DefaultFolderImport | tests/test_commands.ts:66-80 | with the default settings, `create` is called for the test conversation at `Sekha Conversations/My Test_conv-123.md` |

## Left out

- Obsidian user-interface code is not modelled: the id and label prompts
  (main.ts:101-137), the search modal with its clipboard write and three-character guard
  (main.ts:148-190), and the settings tab (main.ts:192-237). It is presentation only.
- Plugin start-up is not modelled: `onload`, command registration and the commands' empty
  input guard (`if (id)`). This is wiring. `saveSettings` appears only as
  `PluginSettings.Saved`, the data it writes.
- The memory service is modelled as stateless. `getConversation` and `search` are
  functions of their arguments, so a search that returns the same id twice fetches the
  same answer twice. The live service could answer differently between calls.
- The Sekha SDK `MemoryController` and the Obsidian vault are foreign code. HTTP,
  authentication and storage are replaced by the oracles of `Import.Env`. What `create`
  does with a path that already exists is left to the oracle.
- Promises and `async`/`await` are not modelled. Every await is one sequential step. An
  error thrown synchronously by `getConversation`, `search` or `create` reaches the same
  `catch` as a rejection, and is treated like one.
- `createFolder` is assumed to always return a promise, as Obsidian's `Promise<TFolder>`
  signature says. Only a rejection is swallowed by its `.catch(() => {})` (main.ts:64). A
  synchronous throw would skip that handler, abort the import at the `catch` of
  main.ts:71 and make no `create` call; the model has no such path.
- Only well-formed conversations are modelled. In the source, a payload without
  `messages` makes `formatConversation` throw, and the `try` turns that into a failure
  notice. A missing field would be rendered as the text `undefined`. Neither happens in
  this model.
- `err.message` is assumed to exist. Rejections that are not `Error` objects are not
  modelled.
- Strings are sequences of Dafny characters, not UTF-16 code units. `substring` and the
  file name therefore count characters.
- Settings data is modelled as three optional fields. Extra keys, and keys present with
  the value `undefined`, are ignored. Missing data is `None`.
- JsSubstring: does not model `NaN` or non-integer bounds, because the source only calls
  it with the constants 0 and 8.
- Text.NatToString: renders non-negative integers only, because the source only renders an
  array length with it.
- `Render.ParseNote` and its stages are not part of the source. They are a reader written
  to state the renderer's round trip, and that round trip needs fields with no line feed. A label that
  contains a line feed produces a note whose front matter cannot be read back, because
  the renderer escapes nothing.
