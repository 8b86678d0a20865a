# Parsa AI chat front-end: request lifecycle and response shaping

This project models, in Dafny, the logic of the `chat` web front-end. The front-end is a React
application over a hosted generative-AI API, with five screens: chat, image generation, image
editing, web search and maps search. The model covers four parts of it:

- **The chat screen's message assembler** (`handleSendMessage`):
  - the guard;
  - the user message and the streaming placeholder;
  - the fold of the reply stream into that placeholder, found by its id;
  - the error overwrite and the final "not streaming" update.
- **The service layer's request shaping** (`generateChatStream`, `generateImage`, `editImage`
  and the two grounded calls):
  - model and config routing;
  - part order;
  - the scan for the first inline image, returned as a `data:` URL (RFC 2397, section 3);
  - the routing tables of `constants.ts`.
- **Grounding-source extraction** in the search and maps screens: the chunks are mapped to
  (uri, title) pairs, using the review-snippet fallback for places, and those without a uri are
  filtered out.
- **The one-shot request state machines** of the search, maps, image generation and image
  editing screens, including the image upload and the geolocation callbacks.

Modules follow the source files:

| module | source file |
|---|---|
| `Types` | `types.ts` |
| `Constants` | `constants.ts` |
| `GeminiService` | `services/geminiService.ts` |
| `Grounding` | the part shared by the search and maps screens |
| `SearchView` | `components/SearchView.tsx` |
| `MapsView` | `components/MapsView.tsx` |
| `ImageGenView` | `components/ImageGenView.tsx` |
| `ImageEditView` | `components/ImageEditView.tsx` |
| `ChatView` | `components/ChatView.tsx` |

`JsSemantics` holds the JavaScript behaviour the screens rely on:
- `String.prototype.trim`, over the WhiteSpace and LineTerminator code points of ECMA-262 (2023), sections 12.2 and 12.3;
- the truthiness of optional strings;
- the `||` fallback.

Each screen is a class whose fields are its React state. A state setter becomes an assignment to
the field.

Every `handleSubmit` is split at its `await`:
- `Start` is the guard, setting loading and clearing the previous outcome;
- `Finish` is the outcome of the call, followed by the `finally`;
- `Submit` runs the two around the service call.

The remote call is an input: the reply, or `Err` when the call throws. The request a screen
sends is returned as a value.

The chat reply stream is a `FragmentStream`. It holds the `text` of every chunk in arrival
order, and whether the stream then throws. A failure after k chunks is a stream of k chunks that
fails. A failure of the request itself is a stream with no chunks that fails.

The chat conversation is specified by patches. Each `setMessages(prev => prev.map(...))` is one
update-by-id pass (`UpdateById`). A submission applies `StreamPatches` in order:
- one `SetText` per published accumulator;
- `SetError` on failure;
- `EndStream`.

`Submitted` is the conversation after that. `ChatView.ChatView.SendMessage` is proved to produce
it; the lemmas state what it is in the source's own terms. `ApplyByIdSnoc` and `SubmitShape`
are proof helpers that state nothing new about the source.

## Model

| member | source | states |
|---|---|---|
| JsSemantics.TrimStart | components/ChatView.tsx:37 | the result is a suffix of the input, everything cut off is white space, and it does not start with white space |
| JsSemantics.TrimEnd | components/ChatView.tsx:37 | the result is a prefix of the input, everything cut off is white space, and it does not end with white space |
| JsSemantics.Trim | components/ChatView.tsx:37 | the trimmed text is a slice of the input with only white space before and after it, and it is empty or starts and ends with a non-space character |
| JsSemantics.TrimEmptyIffBlank | components/ChatView.tsx:37 | `!s.trim()` holds exactly when every character of `s` is white space (both directions) |
| JsSemantics.TrimsToEmpty | components/SearchView.tsx:16 | the blank-prompt guard is true exactly for all-white-space text |
| JsSemantics.Or | components/MapsView.tsx:47-48 | `a \|\| b` is `a` when `a` is a non-empty string, else `b`; the result is truthy iff either operand is |
| Constants.ChatModel | constants.ts:4-9 | `MODELS.chat[mode]`: the fast model exactly for the fast mode, the pro model exactly for the other two |
| Constants.ProAndThinkingShareModel | constants.ts:7-8 | the pro and thinking modes route to the same model |
| Constants.FastDiffersFromPro | constants.ts:6-7 | the fast mode routes to a different model from the pro mode |
| Constants.ImageAnalysisIsProModel | constants.ts:7-10 | the image-analysis model is the pro chat model |
| Constants.AspectRatiosEnumerated | constants.ts:17 | `ASPECT_RATIOS` holds all five aspect ratios, each once, as "1:1", "4:3", "3:4", "16:9", "9:16" in that order |
| Constants.ImageSizesEnumerated | constants.ts:18 | `IMAGE_SIZES` holds all three sizes, each once, as "1K", "2K", "4K" in that order |
| GeminiService.ImagePart | services/geminiService.ts:19-21 | a picked file becomes an inline-data part carrying its base64 data and MIME type unchanged |
| GeminiService.ChatRequestFor | services/geminiService.ts:33-46 | with an image the model is the image-analysis model, else the mode's model; the config carries a 32768 thinking budget iff the mode is thinking, whatever the model; the parts are the image part then the prompt, or the prompt alone |
| GeminiService.ImageOverridesMode | services/geminiService.ts:43 | with an image attached, the chosen model does not depend on the mode |
| GeminiService.DataUrl | services/geminiService.ts:73 | the URL is the PNG base64 data-URL prefix followed by exactly the payload |
| GeminiService.DataUrlInjective | services/geminiService.ts:73 | distinct payloads give distinct URLs |
| GeminiService.FirstInlineImage | services/geminiService.ts:71-76 | succeeds iff some part has inline data, and then returns the data URL of the first such part; otherwise fails with the given message |
| GeminiService.FirstCandidateParts | services/geminiService.ts:71 | the parts are read exactly when the call succeeded and the first candidate, its content and its parts are all present; they are then the first candidate's parts |
| GeminiService.GenerateImage | services/geminiService.ts:51-77 | the request goes to the image generation model with the prompt as its only part and the aspect ratio and size unchanged; the result is an image iff the first candidate has an inline part, and it is the first one's data URL; a reply without one fails with "No image generated" |
| GeminiService.EditImage | services/geminiService.ts:79-100 | the request goes to the image edit model with the image part before the prompt; the result is an image iff the first candidate has an inline part, and it is the first one's data URL; a reply without one fails with "No image generated from edit" |
| GeminiService.SearchRequest | services/geminiService.ts:103-112 | the prompt goes unchanged to the search model with the search tool |
| GeminiService.MapsRequest | services/geminiService.ts:114-128 | the prompt goes to the maps model with the maps tool, carrying the caller's location unchanged |
| Grounding.ChunksOf | components/SearchView.tsx:25 | when the first candidate's grounding chunks are present they are returned as they are; any missing link of the chain gives the empty list |
| Grounding.AsSource | components/SearchView.tsx:26-31 | a kept citation becomes a source with its uri (non-empty) and title unchanged |
| Grounding.KeepLinked | components/SearchView.tsx:31 | at most as many sources as citations, each with a non-empty uri; none is dropped iff every citation has a uri |
| Grounding.KeepLinkedAppend | components/SearchView.tsx:26-31 | filtering commutes with concatenation, so each citation is kept or dropped on its own and order is preserved |
| Grounding.KeepLinkedMembers | components/SearchView.tsx:26-31 | every citation with a uri is kept, and every source comes from a citation with a uri |
| SearchView.WebCitation | components/SearchView.tsx:27-30 | a chunk's citation is its web uri and title, or neither when the chunk has no web part |
| SearchView.WebSources | components/SearchView.tsx:26-31 | at most one source per chunk, each with a non-empty uri |
| SearchView.WebSourceOfChunk | components/SearchView.tsx:27-31 | a single chunk yields `(web.uri, web.title)` exactly when its web uri is non-empty, else nothing |
| SearchView.WebSourcesAppend | components/SearchView.tsx:26-31 | the sources of concatenated chunk lists are the concatenated sources (order kept) |
| SearchView.NoChunksNoSources | components/SearchView.tsx:25 | a response without candidates gives an empty source list, not an error |
| SearchView.SearchView.constructor | components/SearchView.tsx:9-12 | empty prompt, not loading, no result, no error |
| SearchView.SearchView.Start | components/SearchView.tsx:16-20 | a blank prompt changes nothing; otherwise loading starts and result and error are cleared |
| SearchView.SearchView.Finish | components/SearchView.tsx:22-39 | a reply becomes the result with its text and web sources; a failure sets the fixed search error and leaves the result; loading ends |
| SearchView.SearchView.Submit | components/SearchView.tsx:14-40 | blank prompt: no request, no change; otherwise one search request for the prompt, then exactly one of result and error, and not loading; keeps the invariant that result and error never coexist |
| MapsView.FirstSnippet | components/MapsView.tsx:47-48 | the first review snippet of a place, present exactly when the answer sources list at least one snippet |
| MapsView.MapsCitation | components/MapsView.tsx:46-49 | the uri is the place's own uri when non-empty, else the first review snippet's; the title falls back the same way, independently of the uri |
| MapsView.MapsSources | components/MapsView.tsx:45-50 | at most one source per chunk, each with a non-empty uri |
| MapsView.MapsSourceOfChunk | components/MapsView.tsx:45-50 | a single chunk yields one source exactly when its place or first snippet has a non-empty uri |
| MapsView.MapsSourcesAppend | components/MapsView.tsx:45-50 | the sources of concatenated chunk lists are the concatenated sources (order kept) |
| MapsView.MapsView.constructor | components/MapsView.tsx:9-14 | no location yet, status "getting location", nothing loading, no result or error |
| MapsView.MapsView.OnPosition | components/MapsView.tsx:18-23 | the position is stored and the status cleared; nothing else changes |
| MapsView.MapsView.OnPositionError | components/MapsView.tsx:25-28 | status and error both become the location-error text; the location stays as it was |
| MapsView.MapsView.Start | components/MapsView.tsx:35-39 | nothing happens unless the prompt is non-blank and a location is known; otherwise loading starts and result and error are cleared |
| MapsView.MapsView.Finish | components/MapsView.tsx:41-58 | a reply becomes the result with its text and place sources; a failure sets the fixed error and leaves the result; loading ends |
| MapsView.MapsView.Submit | components/MapsView.tsx:33-59 | no request and no change without a non-blank prompt and a location; otherwise one maps request with the stored location unchanged, then exactly one of result and error, and not loading; prompt, location and status are kept |
| ImageGenView.ImageGenView.constructor | components/ImageGenView.tsx:9-14 | empty prompt, 1:1, 1K, not loading, no image, no error |
| ImageGenView.ImageGenView.Start | components/ImageGenView.tsx:18-22 | a blank prompt changes nothing; otherwise loading starts and image and error are cleared |
| ImageGenView.ImageGenView.Finish | components/ImageGenView.tsx:24-32 | an image URL is shown; a failure sets "Failed to generate image. Please try again." and leaves the image; loading ends |
| ImageGenView.ImageGenView.Submit | components/ImageGenView.tsx:16-33 | blank prompt: no request, no change; otherwise one request with the selected ratio and size, then the image is set iff the reply carries one (the first inline part), the error otherwise, and not loading; prompt, ratio and size are kept |
| ImageEditView.ImageEditView.constructor | components/ImageEditView.tsx:8-13 | no image, preview, edit or error; empty prompt; not loading |
| ImageEditView.ImageEditView.UploadImage | components/ImageEditView.tsx:16-24 | a picked file replaces the original and its preview and clears the edited image and error; no file changes nothing |
| ImageEditView.ImageEditView.Start | components/ImageEditView.tsx:28-32 | nothing happens unless the prompt is non-blank and an original image is present; otherwise loading starts and the edited image and error are cleared |
| ImageEditView.ImageEditView.Finish | components/ImageEditView.tsx:34-42 | an image URL is shown; a failure sets "Failed to edit image. Please try again." and leaves the edited image; loading ends |
| ImageEditView.ImageEditView.Submit | components/ImageEditView.tsx:26-43 | no request and no change without a prompt and an image; otherwise one edit request for that image and prompt, then exactly one of edited image and error, and not loading; prompt, original image and preview are kept |
| ChatView.Accumulate | components/ChatView.tsx:68-72 | the accumulator is empty before any chunk and at least as long as the last chunk's text; AccumulateIsConcat gives it as the concatenation of the non-empty fragments |
| ChatView.Present | components/ChatView.tsx:70-71 | the non-empty fragments, never more than the chunks, none of them empty |
| ChatView.Snapshots | components/ChatView.tsx:71-77 | at most one published text per chunk; a chunk with non-empty text publishes the whole accumulator |
| ChatView.AccumulateIsConcat | components/ChatView.tsx:68-79 | skipping empty and missing fragments loses nothing: the accumulator is the concatenation of the non-empty fragments in arrival order |
| ChatView.SnapshotAt | components/ChatView.tsx:68-79 | one text is published per non-empty fragment, and the k-th one is the concatenation of the first k+1 non-empty fragments |
| ChatView.SnapshotCountIsPresent | components/ChatView.tsx:71-77 | as many texts are published as there are non-empty fragments |
| ChatView.SnapshotsGrow | components/ChatView.tsx:72-75 | each published text is a proper prefix of every later one and a prefix of the final accumulator |
| ChatView.SnapshotsEnd | components/ChatView.tsx:72-79 | the last published text is the whole accumulator; with nothing published the accumulator is empty |
| ChatView.Apply | components/ChatView.tsx:75 | a patch keeps a message's id, role, image and sources; it sets the text and streaming flag as the setters at lines 75, 84 and 91 do |
| ChatView.ApplyAll | components/ChatView.tsx:73-93 | a run of patches keeps a message's id, role, image and sources |
| ChatView.UpdateById | components/ChatView.tsx:73-77 | an update-by-id pass keeps the length of the list |
| ChatView.UpdateByIdAt | components/ChatView.tsx:73-77 | an update-by-id pass patches exactly the messages carrying the id, in place, and leaves every other message as it was |
| ChatView.ApplyById | components/ChatView.tsx:73-93 | successive update-by-id passes keep the length of the list |
| ChatView.ApplyByIdAt | components/ChatView.tsx:73-93 | after successive passes, each message with the id has had every patch applied in order, and every other message is untouched |
| ChatView.TextPatches | components/ChatView.tsx:73-77 | one text update per published text, in order |
| ChatView.StreamPatches | components/ChatView.tsx:73-93 | one text update per published text, then the error update if the stream failed, and last the end-of-stream update |
| ChatView.ApplyTextPatches | components/ChatView.tsx:73-77 | after the text updates a message shows the last published text and is streaming |
| ChatView.UserMessage | components/ChatView.tsx:40-45 | a user message with the input as text and the preview as image only when the preview is a non-empty string, not streaming |
| ChatView.Placeholder | components/ChatView.tsx:57-62 | a model message with empty text, no image, marked streaming |
| ChatView.Submitted | components/ChatView.tsx:46-93 | the conversation after a submission is two messages longer; SubmitOutcome states its entries |
| ChatView.StreamSettles | components/ChatView.tsx:65-94 | a submission's updates leave a message with the error notice if the stream failed, else the accumulated text if anything was published, else its own text; never streaming |
| ChatView.SubmitOutcome | components/ChatView.tsx:35-95 | a submission appends exactly two messages: the user message, then a model message with the final text (the full concatenation, or the error notice on failure) not streaming; an earlier message changes only if it carries the model message's id |
| ChatView.FreshIdKeepsHistory | components/ChatView.tsx:73-93 | when the model message's id is new, every earlier message is kept as it was |
| ChatView.SubmitLeavesNoneStreaming | components/ChatView.tsx:87-93 | after a submission no message is left marked as streaming |
| ChatView.ChatView.constructor | components/ChatView.tsx:10-15 | an empty conversation, empty form, not loading, pro mode |
| ChatView.ChatView.AttachImage | components/ChatView.tsx:27-33 | a picked file is attached with its preview URL; no file changes nothing |
| ChatView.ChatView.Open | components/ChatView.tsx:39-66 | loading starts; the user message (the input, and the preview only when non-empty) and the empty streaming placeholder are appended; the form is cleared; the request is made from the input, image and mode as they were |
| ChatView.ChatView.Consume | components/ChatView.tsx:68-79 | the texts published are the accumulator after each non-empty fragment, and each was applied by id to the messages in order; nothing else changes |
| ChatView.ChatView.Finalise | components/ChatView.tsx:80-94 | on failure the error notice is applied by id, then loading ends and the message stops streaming |
| ChatView.ChatView.Run | components/ChatView.tsx:39-94 | the conversation becomes `Submitted(...)`, two messages longer, ending with the user message and the settled model message; the form is cleared; nothing is loading or streaming |
| ChatView.ChatView.SendMessage | components/ChatView.tsx:35-95 | a blank input without an image changes nothing and makes no request; otherwise the request is routed from the old input, image and mode, the form is cleared, and the conversation becomes `Submitted(...)`; keeps the invariant that nothing is loading or streaming between submissions |

## Left out

- The network client (`GoogleGenAI` and its `generateContent` and `generateContentStream` methods) is not modelled. Each request is returned as a value, and each reply is an input.
- `fileToGenerativePart` (services/geminiService.ts:13-22) is not modelled. Its FileReader and base64 encoding are browser work, so a picked file is an `ImageFile` that already carries its base64 text and MIME type.
- `URL.createObjectURL` and `navigator.geolocation` are browser APIs. Their results are parameters: the `previewUrl` arguments, and the `OnPosition` and `OnPositionError` callbacks.
- The `API_KEY` check that throws when the module loads is not modelled. It is environment set-up, not request logic.
- The `Date.now()` message ids are parameters, with the user id distinct from the model id.
- Overlapping submissions are not modelled. Neither is React's asynchronous, batched state updating. Every update is applied in order, as the code writes it.
- Latitude and longitude are floating-point numbers in the source. Here they are `real`s, passed through without arithmetic.
- `console.error` logging is not modelled.
- All JSX, animation and the presentation files are not modelled. Neither are the `LOCALES` tables: a locale's strings enter as parameters, such as the location status texts of the maps screen.
- The plain input setters are not modelled, nor are the chat-mode, aspect-ratio and size selectors: fields are assigned directly.
- GeminiService.GenerateImage, GeminiService.EditImage: reading `candidates[0].content.parts` throws a TypeError when the candidate list, the first candidate, its content or its parts are missing. The model fails with the fixed message `NO_CANDIDATE` in all of those cases, and it does not reproduce the engine's own TypeError text.
- MapsView.MapsView: there is no invariant that a result and an error never coexist. The geolocation effect re-runs when the locale changes, and its error callback sets `error` without clearing the result, so the source allows both to be shown. Submit states the outcome of the request, not an invariant.
- MapsView.MapsView.Finish: the source shows the search screen's failure text ("Failed to perform search. Please try again.") on the maps screen too, and the model keeps that text.
- ChatView.ChatView.SendMessage: the published texts are returned as a ghost list, standing for the intermediate renders of the model message.
