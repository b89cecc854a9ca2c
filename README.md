# PWICE GLOBAL terminal: the App component

This project models the `App` component of a themed character-roleplay
single-page app. The component's state is a handful of fields. Its event
handlers move the user through four screens:

- a lock screen (`LOGIN`) that checks a shared security code;
- a home screen (`HOME`) listing the characters;
- a detail screen (`CHARACTER_DETAIL`) for one character;
- a chat screen (`CHAT`) holding a conversation with a remote language model.

Opening a chat also samples a "watch data" snapshot from the character's pool.
Sending a message appends the user's message and an empty placeholder. The
streamed reply is then folded into that placeholder, chunk by chunk.

Modules:

- `Wrappers`: the `Option` type.
- `Text`: JavaScript `trim` and `split(',')` on strings, with a reference
  characterisation of `trim` and the split/join round trip.
- `Catalog`: the character records and watch-data pools of `constants.ts`,
  reduced to the fields the component reads. It also holds the power class
  and the comma-separated lists the detail screen derives from a record.
- `WatchSampler`: `generateWatchData`. Each `Math.random()` value is an
  input, a real in [0, 1). Each shuffled copy of a pool list is an input,
  namely any permutation of that list.
- `Transcript`: chat messages, the opening line, and the id-based patching
  done by the streaming loop.
- `App`: class `AppState`, with one field per `useState` of the component
  and one method per handler. Its invariant `Valid` says:
  - the detail and chat screens always have a selected character;
  - the chat screen has a session and watch data;
  - watch data always comes from the selected character's pool.

Two things outside the component become parameters:

- the chat gateway: `createChatSession` is a function returning
  `Option<Session>` (None stands for a throw), and `sendMessageStream` is a
  function returning the reply's chunks;
- the clock-derived message ids (`Date.now()`): they are plain arguments.

Behaviour worth knowing:

- `handleSendMessage` has no `isTyping` guard. Only the send button is
  disabled while a reply streams (App.tsx:686). The Enter key calls the
  handler directly (App.tsx:680).
- Going back from the chat screen changes only the view (App.tsx:623). The
  session, the transcript and the watch data are kept. They are replaced
  the next time a chat opens.
- The security code is compared as a whole string with `'0829'`. There is no
  length restriction, and the identity field is never read.
- Selecting a character takes the record itself, not an id. So there is no
  unknown-id case.
- The component has four screens; there is no archive or personnel-list
  screen.
- The opening line of a chat (App.tsx:242) is stored mis-encoded: the UTF-8
  bytes of the Korean greeting read as Windows-1252, with the undefined byte
  0x9D dropped. `Transcript.OpeningText` holds that text as written.

## Model

| member | source | states |
|---|---|---|
| Text.TrimStart | App.tsx:252 | the result is the suffix of s after a run of whitespace characters, and it does not start with whitespace |
| Text.TrimEnd | App.tsx:252 | the result is the prefix of s before a run of whitespace characters, and it does not end with whitespace |
| Text.Trim | App.tsx:252 | `s.trim()`: characterised by TrimShape (the trimmed middle of s) and TrimUnique (the reference definition) |
| Text.TrimShape | App.tsx:485 | `trim` returns the middle of s: everything before it and after it is whitespace, and the result has no whitespace at either end |
| Text.TrimUnique | App.tsx:494 | for any split of s into whitespace, a trimmed middle and whitespace, `trim` returns exactly that middle (the reference definition of `trim`) |
| Text.TrimEmptyIff | App.tsx:252 | `!s.trim()` holds exactly when every character of s is whitespace (both directions) |
| Text.TrimHasContent | App.tsx:686 | an input with one non-whitespace character is not blank after `trim`, so the send is not blocked |
| Text.TrimIdempotent | App.tsx:485 | trimming an already trimmed item changes nothing |
| Text.Split | App.tsx:484 | `split(',')` always yields at least one piece, even for the empty string |
| Text.SplitPieces | App.tsx:484 | `split(',')` yields one piece more than the string has commas, and no piece contains a comma |
| Text.JoinSplit | App.tsx:493 | joining the pieces of `split(',')` with commas restores the original string |
| Text.SplitJoin | App.tsx:493 | splitting comma-free pieces that were joined with commas returns the same pieces |
| Text.CommaItemsShape | App.tsx:484-486 | the list items number one more than the commas; each is the trimmed piece at its position, has no whitespace at either end, and has no comma |
| Text.TrimKeepsNoComma | App.tsx:494 | trimming a comma-free piece gives a trimmed, comma-free item |
| Text.CommaItems | App.tsx:484-485 | `s.split(',').map(item => item.trim())`: characterised by CommaItemsShape |
| Catalog.DetailListItems | App.tsx:484-495 | the appearance and personality lists of a record each have one item per comma plus one; every item is trimmed; splitting loses no text |
| Catalog.AppearanceItems | App.tsx:484-485 | the appearance bullet list: its count and shape are stated by DetailListItems |
| Catalog.PersonalityItems | App.tsx:493-494 | the personality bullet list: its count and shape are stated by DetailListItems |
| Catalog.PowerClass | App.tsx:460 | the power class: characterised by SRankFloor and PowerClassMonotone |
| Catalog.SRankFloor | App.tsx:460 | with every stat out of ten, S-Rank needs at least 6 on every axis |
| Catalog.PowerClassMonotone | App.tsx:460 | raising any stat never turns S-Rank into A-Rank |
| Catalog.CatalogWellFormed | constants.ts:30-319 | character ids are distinct, every stat is between 0 and 10, every character has its own pool, and the default pool `pil-do-seop` exists |
| Catalog.PoolsFull | constants.ts:234-319 | every pool has a location, at least two calls and two messages, and at least four searches |
| WatchSampler.ScaledFloor | App.tsx:225 | `Math.floor(r * n)` is a valid index when n > 0, and 0 when n is 0 |
| WatchSampler.UniformInt | App.tsx:221-222 | `Math.floor(r * (hi - lo + 1)) + lo` lies in [lo, hi] |
| WatchSampler.UniformIntOnto | App.tsx:221-222 | every value in [lo, hi] is produced by some random draw |
| WatchSampler.Pick | App.tsx:225 | picking from a list gives one of its elements, and `undefined` exactly when the list is empty |
| WatchSampler.Take | App.tsx:226-228 | `slice(0, n)` is the prefix of length min(n, length) |
| WatchSampler.PoolFor | App.tsx:219 | the pool lookup with its fallback: OwnPoolSamples covers an id with its own pool, UnknownIdUsesDefault an id without one |
| WatchSampler.TakeOfShuffle | App.tsx:226-228 | a prefix of a shuffled copy has min(n, pool size) entries, all from the pool and none repeated more often than in the pool |
| WatchSampler.GenerateWatchData | App.tsx:218-231 | heart rate is in 65..110 and respiration in 14..22; the location is from the pool and present exactly when the pool has one; calls, messages and searches are sub-multisets of the pool of sizes min(2), min(2), min(4) |
| WatchSampler.OwnPoolSamples | App.tsx:219-228 | a known id is sampled from its own pool, and the snapshot always has a location, 2 calls, 2 messages and 4 searches |
| WatchSampler.UnknownIdUsesDefault | App.tsx:219 | an id without a pool gets exactly the snapshot of the default pool `pil-do-seop` |
| Transcript.Patch | App.tsx:281-283 | the per-chunk `map` over the transcript: characterised by PatchTwice and StreamedEffect |
| Transcript.PatchTwice | App.tsx:281-283 | patching the same id twice is the same as patching it once with the later text |
| Transcript.ConcatNonEmpty | App.tsx:279-280 | skipping empty chunks does not change the accumulated reply, and the reply is empty exactly when every chunk was empty |
| Transcript.StreamedStep | App.tsx:278-284 | one more chunk adds its text to the reply; an empty chunk leaves the transcript as it was, and a non-empty one repatches the placeholder |
| Transcript.StreamedEffect | App.tsx:276-285 | streaming keeps the number of messages and every message with another id; each message with the placeholder id gets the whole reply, or keeps its text if the reply is empty |
| Transcript.AfterSendShape | App.tsx:254-285 | with a fresh placeholder id, a send appends exactly the untrimmed user message and a model message holding the concatenated non-empty chunks; earlier messages stay unchanged |
| Transcript.AfterSendSharedId | App.tsx:281-282 | when the user message and the placeholder share an id, the streamed text overwrites the user message too, because the lookup is by id only |
| App.NeverBackToLogin | App.tsx:201-245 | no sequence of screen changes the handlers allow leads back to the lock screen once it has been passed |
| App.AppState.constructor | App.tsx:169-180 | initial state: lock screen, nothing selected, no session, empty transcript and fields, not typing, no watch data; the invariant holds |
| App.AppState.SetLoginId | App.tsx:319 | the identity field takes the typed value |
| App.AppState.SetLoginPassword | App.tsx:331 | the security-code field takes the typed value |
| App.AppState.SetInputMessage | App.tsx:679 | the chat input takes the typed value |
| App.AppState.HandleLogin | App.tsx:201-210 | the right code opens the home screen and clears the error; any other code stays on the lock screen, shows the denial text and empties the code |
| App.AppState.HandleSelectCharacter | App.tsx:212-216 | the character is selected, the detail screen opens and the watch data is dropped |
| App.AppState.BackToLobby | App.tsx:435 | the detail screen returns to the home screen and nothing else changes |
| App.AppState.BackToDetail | App.tsx:623 | the chat screen returns to the detail screen; session, transcript and watch data are kept |
| App.AppState.StartChat | App.tsx:233-249 | a gateway failure changes nothing; otherwise the session is set, watch data is sampled from the character's pool, the transcript is just the opening line, and the chat screen opens |
| App.AppState.HandleSendMessage | App.tsx:251-292 | a blank input or a missing session changes nothing; otherwise the transcript becomes the send's result, the input is cleared and typing ends; the invariant is kept |
| App.AppState.FoldStream | App.tsx:278-285 | after the streaming loop, the transcript is the old one with the placeholder patched to the concatenation of all chunks received |

## Left out

- WatchSampler.WatchData: the temperature reading (`toFixed(1)` of a float) is not modelled. It is a display string that no other logic reads.
- WatchSampler.GenerateWatchData: `Math.random()` is a real in [0, 1), not an IEEE double. Each shuffle is any permutation of the pool list. The model does not capture the non-uniform distribution that `sort(() => 0.5 - Math.random())` produces.
- WatchSampler.PoolFor: a lookup key that names a built-in object property (such as `constructor`) is treated as a missing key.
- App.AppState.StartChat: `alert` on a gateway failure is not modelled. The model only states that no state changes. The `!selectedChar` guard cannot fire from the detail screen, so it is kept but never taken.
- App.AppState.HandleSendMessage: the handler runs as one atomic step. The interleaving of other events between stream chunks is not modelled; one example is a second send started with Enter while a reply streams. `console.error` is not modelled, and a stream that fails partway keeps the text already received.
- Transcript.ChatMessage: message timestamps (`new Date()`) are not modelled. They are display-only.
- Message ids from the clock are parameters. One send reads `Date.now()` for the user message (App.tsx:255) and `Date.now() + 1` for the placeholder (App.tsx:267), one after the other. The two ids differ unless the clock steps back between the reads, so the `userId != tempId` that `AfterSendShape` requires holds at every send on a clock that never goes backwards. `AfterSendSharedId` shows what a send does when the clock did step back and the two ids are equal.
- Text: strings are sequences of Unicode code points. JavaScript strings are UTF-16 code units. The two agree for every whitespace character `trim` removes.
- Catalog.Character: the lore fields, the persona prompts (`systemInstruction`), images, theme songs and colours are not modelled. No modelled logic reads them.
- The `CharacterMusicPlayer` widget, the `SAIFChart` component, `ORGANIZATION_INFO`, and all rendering, styling and scroll effects are not modelled. They are presentation only.
- The gateway in `services/geminiService.ts` is not part of this model. It enters only as the function parameters of `StartChat` and `HandleSendMessage`.
- Handlers require the screen whose control calls them, for example `HandleLogin` on the lock screen. That screen is the only place those handlers can be invoked.
