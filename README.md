# NiiVue bridges and viewer interface — a Dafny model

This project models the sequential rules around the NiiVue medical-image
viewer as the repository embeds it:

- the postMessage vocabulary between the hosts and the embedded viewer page;
- the hosts that answer the page's `ready`: the VS Code editor providers
  (the current and the older extension), the Streamlit component and page,
  and the MATLAB bridge;
- the three versions of the page's message listener, with the viewer array
  of canvas slots they grow and fill, and the ready handshake;
- the payload codec: base64 (section 4 of RFC 4648) as the Python side
  encodes it and the TypeScript side decodes it;
- the Streamlit change detection and click-event shaping, and the
  `JSON.parse` of the string literals the Streamlit pages fill in
  (section 7 of RFC 8259);
- the name utilities (`differenceInNames`, `getNames`, `isImageType`), the
  NIfTI-1 datatype code table and the MetaImage header builder;
- file-type routing in `loadVolume`;
- keyboard shortcuts: formatting, matching and first-match dispatch;
- the interface state of the React and Preact front ends: selection modes,
  the single open menu, presets and their storage, the settings merge, the
  4D frame navigator and its sync, the card grid, and the per-layer
  colormap, scaling, opacity and invert controls.

The viewer library itself (WebGL rendering, image and mesh readers,
`setFrame4D`, `broadcastTo`) is outside the model. Where the interface
calls into it, the call is recorded in the order it is made (`ViewerCall`,
`readRequests`), or its outcome is a parameter (`readOk`, `fetchOk`,
`isImage`). Storage is a map from key to stored text, I/O and time are
parameters, and timers and promises are reduced to the order in which
their effects happen.

Every module is one component of the source. Classes stand for the
components that keep state: the viewer array, the ready manager, the
webview collection, the menu bar, the 4D navigator and the cards. Their
methods are proved against functions that the lemmas then characterise.

## Model

| member | source | states |
|---|---|---|
| Messages.UriText | apps/vscode/src/editorProvider.ts:297-300 | a webview URL is the webview origin followed by the file's path |
| Messages.CanvasN | packages/niivue-react/src/events.ts:32-38 | `body.n` is defined exactly for an `{n}` body and undefined for a bare number |
| Messages.CountAddImage | packages/niivue-react/src/events.ts:25-31 | the number of `addImage` messages is at most the number of messages |
| Messages.CountAddImageAppend | packages/niivue-react/src/events.ts:25-31 | the `addImage` count of two sequences sent one after the other is the sum of their counts |
| ViewerSlots.FreshSlots | packages/niivue-react/src/events.ts:324-327 | `n` slots, each new, not loaded, without body |
| ViewerSlots.FirstNew | packages/niivue-react/src/events.ts:311-313 | `find(nv => nv.isNew)`: none iff no slot is new; otherwise a new slot with no new slot before it |
| ViewerSlots.NewCount | packages/niivue-react/src/events.ts:324-327 | the number of waiting slots is at most the number of slots |
| ViewerSlots.NewCountAppend | packages/niivue-react/src/events.ts:348-357 | the waiting count of a concatenation is the sum of the counts |
| ViewerSlots.NewCountFresh | packages/niivue-react/src/events.ts:348-357 | `n` fresh slots are `n` waiting slots |
| ViewerSlots.NewCountUpdate | packages/niivue-react/src/events.ts:27-29 | replacing one slot changes the waiting count by the difference of the two flags |
| ViewerSlots.ClaimIndex | packages/niivue-react/src/events.ts:311-318 | the slot `addImage` fills is the first new slot, or one past the end when no slot is new |
| ViewerSlots.AddImageClaims | packages/niivue-react/src/events.ts:25-31 | `addImage` changes exactly one slot (the first new one, or one appended): it stores the body and stops being new; the others are unchanged |
| ViewerSlots.AddImageNewCount | packages/niivue-react/src/events.ts:25-31 | each `addImage` uses up one waiting slot if there was one |
| ViewerSlots.ViewerArray.constructor | packages/niivue-react/src/components/AppProps.ts:40-49 | an empty array with the initial slice type, nothing posted, rejected or rerendered |
| ViewerSlots.ViewerArray.GrowBy | packages/niivue-react/src/events.ts:348-357 | `growNvArrayBy(n)` appends exactly `n` fresh slots (none for `n` ≤ 0) and keeps the existing ones |
| ViewerSlots.ViewerArray.ClaimSlot | packages/niivue-react/src/events.ts:311-318 | `getUnitinializedNvInstance` returns the first new slot, or grows the array by one and returns the last slot |
| ViewerSlots.ViewerArray.FillSlot | packages/niivue-react/src/events.ts:27-29 | the claimed slot stores the body and is no longer new; no other slot changes |
| MeshLayers.LayerDefaults | packages/niivue-react/src/events.ts:183-206 | curvature: opacity 0.7, 'gray', no negative colormap, range [0.3, 0.5]; overlay and replace: 0.7, 'hsv', negative ''; any other type: no options |
| MeshLayers.LegacyKind | niivue/events.ts:10-24 | the oldest listener renames addMeshOverlay to 'overlay', addMeshCurvature to 'curvature', replaceMeshOverlay to 'replaceOverlay' |
| MeshLayers.LegacyDefaults | niivue/events.ts:66-86 | the oldest listener's inline table, keyed by kind, with the same two option sets |
| MeshLayers.LegacyTableAgrees | niivue/events.ts:66-86 | renaming the type and looking up the oldest table gives the newer table's entry |
| MeshLayers.Pop | packages/niivue-react/src/events.ts:146-148 | `layers.pop()` drops the last layer and leaves an empty list empty |
| MeshLayers.HideLastColorbar | packages/niivue-react/src/events.ts:177-180 | only the last layer's colorbar is hidden; the layer count is kept |
| MeshLayers.ReactMeshOverlayFrame | packages/niivue-react/src/events.ts:139-181 | without a mesh nothing changes; otherwise only the first mesh and the colorbar flag change, and the overlay fails exactly when the read fails or a data-less overlay cannot be fetched |
| MeshLayers.ReactMeshOverlayAdds | packages/niivue-react/src/events.ts:144-180 | a successful overlay pushes one layer with the type's defaults after the old layers (less the last for a replace); only a curvature hides its colorbar |
| MeshLayers.ReplaceKeepsLayerCount | packages/niivue-react/src/events.ts:146-169 | a replace on a mesh with layers keeps the layer count |
| MeshLayers.RecordedMeshOverlayNeverPushes | niivue/src/events.ts:153-189 | when the reader's result is dropped the overlay never becomes a layer: no more layers, one more read request with the given options |
| ReactEvents.OverlayOnSlot | packages/niivue-react/src/events.ts:208-221 | an image name becomes a volume with the page's default overlay colormap and opacity 0.5, whatever the body carries; any other name becomes a mesh of opacity 0.5 |
| ReactEvents.OverlayMessageTouchesOneSlot | packages/niivue-react/src/events.ts:13-24 | an overlay message changes at most the slot it addresses and never the slot count; a missing slot changes nothing and rejects |
| ReactEvents.DebugReplyCases | packages/niivue-react/src/events.ts:62-92 | `getNCanvas` answers with the array length; the first-viewer queries throw exactly when what they read is missing; other queries post nothing |
| ReactEvents.InitSliceType | packages/niivue-react/src/events.ts:34-36 | AXIAL exactly when an empty array gets more than one canvas, otherwise unchanged |
| ReactEvents.GrowCount | packages/niivue-react/src/events.ts:348-349 | an undefined or non-positive `n` makes no loop turn |
| ReactEvents.HandleMessage | packages/niivue-react/src/events.ts:8-51 | an unknown type returns false and changes nothing; each handled type changes what its case says and rerenders once; a debug query that throws changes nothing |
| ReactEvents.UrlParamMessagesOrder | packages/niivue-react/src/events.ts:104-128 | a present `images` parameter yields `initCanvas` with the URL count first, then one `addImage` per URL in order |
| ReactEvents.ListenToMessages | packages/niivue-react/src/events.ts:53-60 | installing the listener tells the ready manager and posts the URL's images to the page |
| SrcEvents.OverlayOnSlot | niivue/src/events.ts:216-224 | an image name becomes a 'redyell' volume of opacity 0.5, anything else a mesh |
| SrcEvents.DebugRepliesAgree | niivue/src/events.ts:84-106 | this page answers debug queries as the React page does, except that it ignores `getNVolumes` |
| SrcEvents.DcmFilesKeepSlotNew | niivue/src/events.ts:30-34 | `addDcmFiles` claims a slot but leaves it new, so the next image claims it again; the array grows only when no slot was new |
| SrcEvents.OnMessage | niivue/src/events.ts:8-53 | an unknown type returns before the rerender; a thrown error aborts before it; each handled type changes what its case says and rerenders once |
| SrcEvents.ListenToMessages | niivue/src/events.ts:6-58 | `ready` goes to the host exactly when a `vscode` object exists, then the URL's images are posted |
| LegacyEvents.MeshOverlayAgreesWithSrc | niivue/events.ts:61-114 | for every mesh message type the oldest listener does to a slot what the older one does, except that it never fetches |
| LegacyEvents.InitSliceType | niivue/events.ts:37-43 | AXIAL whenever the existing length plus `n` exceeds one |
| LegacyEvents.InitSliceTypeDiffers | niivue/events.ts:37-43 | adding canvases to an array that holds one switches to AXIAL here but not in the newer listeners; for an empty array the rules agree |
| LegacyEvents.MessageListener | niivue/events.ts:5-50 | every message, known or not, returns a copy of the array, except a mesh message for a missing slot, which throws in the updater |
| ReadyState.RunSendsOnce | packages/niivue-react/src/readyState.ts:19-37 | in any order and repetition of the notifications: each flag is set iff its notification came; `ready` counts as sent iff both came; it is posted exactly once when both came and a host exists, else never |
| ReadyState.ReadyStateManager.constructor | packages/niivue-react/src/readyState.ts:14-17 | all three flags start false and nothing is posted |
| ReadyState.ReadyStateManager.SetEventListenerReady | packages/niivue-react/src/readyState.ts:19-22 | sets the listener flag, then checks |
| ReadyState.ReadyStateManager.SetDomReady | packages/niivue-react/src/readyState.ts:24-27 | sets the DOM flag, then checks |
| ReadyState.ReadyStateManager.CheckAndSendReady | packages/niivue-react/src/readyState.ts:29-37 | posts `ready` only when both flags are set and it was not sent before; `readySent` is set even without a host |
| ReadyState.ReadyOnceEitherOrder | packages/niivue-react/src/readyState.ts:19-37 | after both notifications, in either order, exactly one `ready` was sent when a host exists |
| PageRequests.FileImages | packages/niivue-react/src/events.ts:270-279 | one `addImage` per chosen file, in order |
| PageRequests.FileImagesCount | packages/niivue-react/src/events.ts:270-279 | as many `addImage` messages as files |
| PageRequests.OverlayRequestEchoes | packages/niivue-react/src/events.ts:223-250 | the overlay request names the image index and the type asked for on either side, and sends one message unless the file picker is dismissed |
| PageRequests.ImagesRequestAnnouncesCanvases | packages/niivue-react/src/events.ts:252-284 | canvases are announced before any image, and there are exactly as many images as canvases |
| PageRequests.DcmFolderRequest | packages/niivue-react/src/events.ts:286-309 | a request to the host, or one `addImage` holding the whole folder, posted even for an empty folder |
| PageRequests.SrcDcmFolderIsImagesRequest | niivue/src/events.ts:289-310 | inside the webview the older page's folder request is the same message as its images request |
| HostCommon.GetFlag | apps/vscode/src/editorProvider.ts:53-61 | `config.get(key, default)`: the configured value when the key is set, the default otherwise |
| HostCommon.GetName | apps/vscode/src/editorProvider.ts:53-61 | the same for the two colormap names |
| HostCommon.TrailingSlashEmpty | apps/vscode/src/editorProvider.ts:78 | a path ending in '/' has an empty last segment |
| HostCommon.SlashFreeSegment | apps/vscode/src/editorProvider.ts:78 | a path without '/' is its own last segment |
| HostCommon.TabNames | apps/vscode/src/editorProvider.ts:78-79 | a path ending in '/' falls back to the fixed titles ('NiiVue Web Panel', 'NiiVue DICOM'); a bare name gives 'web: name' and 'name' |
| HostCommon.DcmFolderMessages | apps/vscode/src/editorProvider.ts:227-240 | one `addImage` whose data lists every file of the folder in directory order and whose URI is the first file's; nothing for an empty folder, where the handler throws |
| HostCommon.IsUriAccessible | apps/vscode/src/editorProvider.ts:302-313 | true exactly when workspace folders exist and one of them is a prefix of the file's path |
| HostCommon.PanelsFor | apps/vscode/src/editorProvider.ts:322-329 | a key yields at most as many panels as there are entries |
| HostCommon.Without | apps/vscode/src/editorProvider.ts:331-338 | after disposal no entry names the panel, and none was added |
| HostCommon.PanelsForAdd | apps/vscode/src/editorProvider.ts:322-338 | `add` makes the panel the last one `get` yields for its URI and changes nothing for any other URI |
| HostCommon.PanelsForWithout | apps/vscode/src/editorProvider.ts:322-338 | disposing a panel removes exactly that panel from what `get` yields for every URI, keeping the order of the others |
| HostCommon.WebviewCollection.constructor | apps/vscode/src/editorProvider.ts:317-320 | the collection starts empty |
| HostCommon.WebviewCollection.Add | apps/vscode/src/editorProvider.ts:331-338 | one entry for the URI's string and the panel is appended |
| HostCommon.WebviewCollection.Dispose | apps/vscode/src/editorProvider.ts:334-337 | the dispose listener deletes the panel's entries and keeps the rest |
| HostCommon.WebviewCollection.Get | apps/vscode/src/editorProvider.ts:322-329 | the loop yields exactly the panels registered under the URI's string, in insertion order |
| VscodeHost.SettingsMessage | apps/vscode/src/editorProvider.ts:53-75 | `initSettings` carries the seven editor settings |
| VscodeHost.DefaultSettings | apps/vscode/src/editorProvider.ts:55-61 | with nothing configured: crosshairs and interpolation on, colorbar, radiological convention and zoom-drag off, colormaps 'gray' and 'redyell' |
| VscodeHost.SettingsReadOnlyTheirKeys | apps/vscode/src/editorProvider.ts:55-61 | a key outside the seven never changes the message; a configured key overrides its default |
| VscodeHost.UrlImages | apps/vscode/src/editorProvider.ts:130-137 | one `addImage` by webview URL per file, in order |
| VscodeHost.SingleFileReply | apps/vscode/src/editorProvider.ts:83-95 | a single file gets the settings first and then exactly one `addImage` by URL |
| VscodeHost.DcmFolderReply | apps/vscode/src/editorProvider.ts:100-113 | a folder gets the settings first and one `addImage` unless it is empty |
| VscodeHost.CompareReply | apps/vscode/src/editorProvider.ts:115-141 | a comparison posts the settings, `initCanvas` with the file count, then each file by URL in the order given |
| VscodeHost.UrlImagesCount | apps/vscode/src/editorProvider.ts:130-137 | as many `addImage` messages as files |
| VscodeHost.ReadyListener.constructor | apps/vscode/src/editorProvider.ts:83-84 | `isImageSent` starts false and nothing is posted |
| VscodeHost.ReadyListener.OnDidReceiveMessage | apps/vscode/src/editorProvider.ts:83-95 | the first `ready` sets `isImageSent` and posts the reply; any later message posts nothing |
| VscodeHost.PostUrlImages | apps/vscode/src/editorProvider.ts:130-137 | the loop posts exactly the URL images of the files, in order |
| VscodeHost.ReplayReady | apps/vscode/src/editorProvider.ts:83-95 | over any sequence of page messages the reply is posted exactly once if a `ready` came, else never |
| VscodeHost.PickedImages | apps/vscode/src/editorProvider.ts:183-205 | one image per picked file, each a `.dcm` by data or another file by URL |
| VscodeHost.CommonListener | apps/vscode/src/editorProvider.ts:143-225 | the listener posts exactly the reply its request calls for |
| VscodeHost.CommonReplyCases | apps/vscode/src/editorProvider.ts:143-225 | a dismissed dialog or another message posts nothing; an overlay echoes the requested type and index with the file's URL; images announce the pick count, then each `.dcm` (any case) by data and every other file by URL |
| VscodeHost.DocumentImageChoice | apps/vscode/src/editorProvider.ts:269-282 | the document goes by URL exactly when it is accessible and neither `.dcm` nor `.mnc` in any letter case; otherwise its own bytes are sent |
| VscodeHost.EditorListener.constructor | apps/vscode/src/editorProvider.ts:242-263 | the editor's listener starts with nothing posted |
| VscodeHost.EditorListener.OnDidReceiveMessage | apps/vscode/src/editorProvider.ts:264-293 | every `ready` posts the settings and the document again; other messages post nothing |
| VscodeHost.ResolveCustomEditor | apps/vscode/src/editorProvider.ts:242-263 | the panel is registered under the document's URI string and gets a fresh listener that has posted nothing |
| VscodeHost.ReadyCount | apps/vscode/src/editorProvider.ts:264-293 | the number of `ready` messages is zero exactly when none came |
| VscodeHost.Repeat | apps/vscode/src/editorProvider.ts:264-293 | `n` repetitions are `n` times as long |
| VscodeHost.ReplayEditor | apps/vscode/src/editorProvider.ts:264-293 | a custom editor posts its two messages once per `ready`, so once per page reload |
| LegacyHost.SettingsMessage | src/editorProvider.ts:45-63 | `initSettings` with the five flags of this release |
| LegacyHost.SettingsAgree | src/editorProvider.ts:45-63 | the five flags read the same keys with the same defaults as the current release; unset they are true, true, false, false, false |
| LegacyHost.DataImages | src/editorProvider.ts:104-113 | one data-carrying `addImage` per file, in order |
| LegacyHost.DataImagesCount | src/editorProvider.ts:104-113 | as many `addImage` messages as files |
| LegacyHost.ReadyRepliesCorrespond | src/editorProvider.ts:65-117 | both releases answer a `ready` with the same message kinds in the same places, the same canvas count, and for a comparison the same files in the same order |
| LegacyHost.ReadyListener.constructor | src/editorProvider.ts:68-69 | nothing posted yet |
| LegacyHost.ReadyListener.OnDidReceiveMessage | src/editorProvider.ts:69-77 | every `ready`, not only the first, posts the whole reply |
| LegacyHost.PostDataImages | src/editorProvider.ts:104-113 | the loop posts exactly the data images of the files, in order |
| LegacyHost.ReplayReady | src/editorProvider.ts:65-117 | the reply is posted once per `ready` in the sequence |
| LegacyHost.CommonListener | src/editorProvider.ts:119-206 | the listener posts exactly the reply its request calls for |
| LegacyHost.CommonRepliesCorrespond | src/editorProvider.ts:119-206 | both releases answer each request with the same number of messages, the same overlay type and index, the same canvas count, the same message for a `.dcm` image and the same folder message |
| LegacyHost.EditorListener.constructor | src/editorProvider.ts:223-233 | nothing posted yet |
| LegacyHost.EditorListener.OnDidReceiveMessage | src/editorProvider.ts:234-245 | every `ready` posts the settings and the document's contents |
| LegacyHost.ResolveCustomEditor | src/editorProvider.ts:223-233 | the panel is registered under the document's URI string and gets a fresh listener |
| CompareView.DatatypeFallback | media/main.js:3-46 | exactly the codes outside the NIfTI-1 table read 'unknown datatype code' |
| CompareView.DatatypeExamples | media/main.js:3-46 | 2 is uint8, 4 int16, 16 float32, 64 float64, 256 int8, 512 uint16; 3 and -1 are unknown |
| CompareView.DifferenceInNamesAsWritten | media/main.js:92-127 | throws exactly on an empty list; otherwise one name per input |
| CompareView.DifferenceInNames | media/main.js:92-127 | the corrected function: throws exactly on an empty list, otherwise one name per input |
| CompareView.DigitPairShared | media/main.js:92-115 | two two-character names that differ first and share a final digit share no prefix and a one-character suffix |
| CompareView.PairShares | media/main.js:96-115 | two names share a prefix or suffix of length `k` exactly when their ends agree |
| CompareView.DigitPairStartCuts | media/main.js:92-110 | such a pair keeps its prefix cut at 0 under either rule |
| CompareView.DigitPairEndCuts | media/main.js:111-125 | the suffix cut stays 1 as written and becomes 0 corrected |
| CompareView.OneDigitSuffix | media/main.js:123-125 | a one-digit suffix is kept in the cut by the probe as written and backed off by the corrected probe |
| CompareView.AsWrittenDropsTrailingDigit | media/main.js:92-127 | as written, two names differing before a shared final digit lose that digit |
| CompareView.CorrectedKeepsTrailingDigit | media/main.js:92-127 | corrected, such names are shown in full |
| CompareView.CorrectedKeepsDigitRuns | media/main.js:122-126 | the corrected suffix cut never begins with a digit, so trailing digit runs stay in every name |
| CompareView.Label | media/main.js:189-194 | `slice(-25)`: at most 25 characters, a suffix of the name, the whole name when it is short enough |
| CompareView.ChainedSyncs | media/main.js:181-184 | chaining keeps the number of viewers |
| CompareView.Labels | media/main.js:189-194 | one label per name, in order |
| CompareView.SetNames | media/main.js:189-194 | the labels are the last 25 characters of the as-written name differences of the viewers' first volumes |
| CompareView.LabelAll | media/main.js:191-193 | the loop writes exactly one label per name |
| CompareView.ComparePage.constructor | media/main.js:339-345 | no viewers, no canvases, view type 3, no labels |
| CompareView.ComparePage.CreateCanvases | media/main.js:129-145 | `n` canvases with the next ids (none for a missing or non-positive `n`); canvases stay numbered in creation order |
| CompareView.ComparePage.AddViewer | media/main.js:147-184 | a canvas is created only when the new viewer has none; setting the view type switches every existing viewer to it, the new viewer gets it and the item, and the viewers are chained |
| CompareView.ComparePage.SetViewType | media/main.js:196-200 | the view type becomes `t` and, through the 'change' listener, every viewer's slice type becomes `t`, keeping each viewer's volumes and sync |
| CompareView.Retyped | media/main.js:298-301 | the same viewers, in order, with the same volumes and sync, all showing the slice type |
| CompareView.AddedViewerShows | media/main.js:147-184 | after the view type is set and a viewer of that type is pushed and chained, every viewer shows the type, the old viewers keep their volumes and the new one holds its own |
| CompareView.ComparePage.AddImage | media/main.js:147-187 | adds the viewer, then the labels are those of the new viewers' as-written name differences; every viewer shows the current view type, the old viewers keep their volumes and the new viewer holds the item alone |
| CompareView.PageLabelsDropTrailingDigit | media/main.js:189-194 | two viewers named like "a1" and "b1" are labelled "a" and "b" on the page |
| CompareView.ComparePage.HandleMessage | media/main.js:303-337 | 'compare' adds two viewers in axial view (it falls through into 'addImage'); 'addImage', 'localDocument' and 'webUrl' add one; 'initCanvas' adds canvases only; other types change nothing; after 'compare' or 'addImage' every viewer shows the axial view, and after 'localDocument' or 'webUrl' every viewer shows the current view type |
| CompareView.ComparePage.ImageCase | media/main.js:326-330 | the addImage case switches every viewer to the axial view and adds exactly one viewer, keeping every viewer on a canvas and the old viewers' volumes |
| CompareView.ComparePage.CompareCase | media/main.js:321-330 | the fall-through case adds the item twice and switches every viewer to the axial view; the old viewers keep their volumes, and the labels are the viewers' as-written name differences |
| CompareView.ComparePage.AddOverlay | media/main.js:217-220 | with no viewer the handler throws and nothing changes; otherwise a 'redyell' volume is added to the first viewer only |
| CompareView.FirstVolumeNames | media/main.js:190 | the first volume name of each viewer, one per viewer |
| CompareView.ChainedSyncsKeeps | media/main.js:181-184 | chaining changes only whom each viewer syncs with |
| CompareView.SyncIsOneWay | media/main.js:181-184 | viewer i syncs with i + 1 only and the last with none, so no sync runs back |
| MatlabBridge.OrElse | packages/niivue-matlab/src/matlab.tsx:109 | `v ?? d`: the default replaces an undefined or null value |
| MatlabBridge.IndexIn | packages/niivue-matlab/src/matlab.tsx:70-76 | the corrected guard: an index is accepted only as a whole number naming one of the volumes (what the written guard lets through beyond that throws, see `Throws`) |
| MatlabBridge.WithVolume | packages/niivue-matlab/src/matlab.tsx:76-78 | the write replaces one volume of the first viewer and nothing else |
| MatlabBridge.LoadVolume | packages/niivue-matlab/src/matlab.tsx:124-181 | a volume load changes neither the slice type nor the meshes nor any viewer but the first, keeps the first viewer's volumes as a prefix, sends at most one reply, and without a viewer and a canvas does nothing |
| MatlabBridge.LoadMesh | packages/niivue-matlab/src/matlab.tsx:184-215 | a mesh load leaves every volume, crosshair and other viewer alone and appends at most one mesh, with one rerender exactly when it appends |
| MatlabBridge.Handle | packages/niivue-matlab/src/matlab.tsx:56-121 | only an unknown type warns; only the two loads reply; only `setSliceType` changes the slice type; only the known types other than it change the viewers |
| MatlabBridge.ThrowChangesNothing | packages/niivue-matlab/src/matlab.tsx:68-92 | a write that throws as written is one the corrected guard rejects, and it leaves the state as it was |
| MatlabBridge.BadIndicesThrow | packages/niivue-matlab/src/matlab.tsx:70-76 | with one volume, `setOpacity` at index -1 or 0.5 throws, at index 0 it does not |
| MatlabBridge.IgnoredMessages | packages/niivue-matlab/src/matlab.tsx:61-119 | a message without payload has no effect at all; an unknown type changes no state and only warns |
| MatlabBridge.SetOpacityGuard | packages/niivue-matlab/src/matlab.tsx:69-80 | the opacity of the addressed volume changes, with one rerender, exactly when the index names a volume and the opacity is a number; otherwise nothing changes |
| MatlabBridge.SetColormapGuard | packages/niivue-matlab/src/matlab.tsx:81-92 | the same for a string colormap |
| MatlabBridge.CrosshairsNeedThreeNumbers | packages/niivue-matlab/src/matlab.tsx:93-104 | the crosshair moves only for three numbers and an existing viewer, and then to exactly them |
| MatlabBridge.SliceTypeDefault | packages/niivue-matlab/src/matlab.tsx:108-110 | a missing or null slice type gives MULTIPLANAR; a given value is taken as is |
| MatlabBridge.ClearVolumesFirstOnly | packages/niivue-matlab/src/matlab.tsx:111-117 | with a viewer, only the first viewer's volumes are emptied; without one nothing changes |
| MatlabBridge.LoadVolumeAddsOne | packages/niivue-matlab/src/matlab.tsx:124-181 | without data nothing happens; a successful load adds one volume, last, to the first viewer, holding the decoded bytes, named 'volume.nii' unless named, and reports the crosshair |
| MatlabBridge.LoadVolumeReceivesEncodedBytes | packages/niivue-matlab/src/matlab.tsx:141-156 | bytes base64-encoded by the sender arrive unchanged as the new volume's contents |
| MatlabBridge.NegativeIndexPassesGuard | packages/niivue-matlab/src/matlab.tsx:70-76 | as written, index -1 passes the guard for one volume but names none |
| MatlabBridge.CorrectedGuardNamesVolume | packages/niivue-matlab/src/matlab.tsx:70-76 | the corrected guard admits exactly the indices whose write finds a volume |
| MatlabBridge.DecodeData | packages/niivue-matlab/src/matlab.tsx:143-150 | `atob` and the char-code loop give exactly the forgiving base64 decode |
| MatlabBridge.Bridge.constructor | packages/niivue-matlab/src/matlab.tsx:8-10 | no viewer, not registered, not mounted, nothing sent |
| MatlabBridge.Bridge.SendToMatlab | packages/niivue-matlab/src/matlab.tsx:218-226 | written to `Data` once `setup` registered the component, dropped before |
| MatlabBridge.Bridge.Setup | packages/niivue-matlab/src/matlab.tsx:41-54 | the component is registered and `viewerReady` is written |
| MatlabBridge.Bridge.Mount | packages/niivue-matlab/src/matlab.tsx:242-244 | the app's first effect publishes its state to the bridge |
| MatlabBridge.Bridge.HandleMatlabMessage | packages/niivue-matlab/src/matlab.tsx:57-121 | the page state, replies, rerenders and warnings become those of the message's case; a write that throws is counted as uncaught |
| MatlabBridge.Bridge.LoadVolumeFromBase64 | packages/niivue-matlab/src/matlab.tsx:124-181 | the step-by-step load (attach, decode loop, add) ends in exactly the state the load function describes |
| MatlabBridge.Bridge.OnDataChanged | packages/niivue-matlab/src/matlab.tsx:45-50 | a message acts only once the component is registered and the app mounted, and then as its case says, a throw escaping the listener being counted |
| Base64.SextetOf | apps/streamlit/niivue_component/frontend/src/utils.ts:72 | an alphabet character's value is a six-bit number |
| Base64.CharOf | apps/streamlit/niivue_component/__init__.py:76 | the character written for a value reads back as that value |
| Base64.Group | apps/streamlit/niivue_component/__init__.py:76 | three bytes give four six-bit values |
| Base64.Tail | apps/streamlit/niivue_component/__init__.py:76 | one or two final bytes give two or three six-bit values |
| Base64.SextetsOf | apps/streamlit/niivue_component/__init__.py:76 | four values per whole group and one more than the leftover bytes for a partial one, all six-bit |
| Base64.Chars | apps/streamlit/niivue_component/__init__.py:76 | one alphabet character per value |
| Base64.Encode | apps/streamlit/niivue_component/__init__.py:76 | the padded encoding has a length divisible by four |
| Base64.RemoveWhitespace | apps/streamlit/niivue_component/frontend/src/utils.ts:72 | never longer, and text without whitespace is unchanged |
| Base64.RemoveWhitespaceKeeps | apps/streamlit/niivue_component/frontend/src/utils.ts:72 | every non-whitespace character survives |
| Base64.Sextets | apps/streamlit/niivue_component/frontend/src/utils.ts:72 | when every character is in the alphabet, each is read as its value |
| Base64.Ungroup | apps/streamlit/niivue_component/frontend/src/utils.ts:72 | four values give three bytes |
| Base64.Untail | apps/streamlit/niivue_component/frontend/src/utils.ts:72 | two or three trailing values give one or two bytes |
| Base64.StripPadding | apps/streamlit/niivue_component/frontend/src/utils.ts:72 | only trailing '=' characters are removed |
| Base64.BinaryString | apps/streamlit/niivue_component/frontend/src/utils.ts:72 | one char per byte, its code the byte's value |
| Base64.FillBytes | apps/streamlit/niivue_component/frontend/src/utils.ts:73-77 | a fresh buffer as long as the string whose byte i is char code i modulo 256 |
| Base64.Base64ToArrayBuffer | apps/streamlit/niivue_component/frontend/src/utils.ts:71-79 | throws exactly when the forgiving decode fails, and otherwise returns exactly the decoded bytes |
| Base64.GroupRoundTrip | apps/streamlit/niivue_component/__init__.py:76 | a group of three bytes survives its four values |
| Base64.TailRoundTrip | apps/streamlit/niivue_component/__init__.py:76 | so do the last one or two bytes |
| Base64.DecodeSextetsOf | apps/streamlit/niivue_component/__init__.py:76 | decoding the values of any bytes gives the bytes back |
| Base64.SextetsOfChars | apps/streamlit/niivue_component/__init__.py:76 | the written characters read back as the values |
| Base64.EncodeHasNoWhitespace | apps/streamlit/niivue_component/__init__.py:76 | the encoder writes no whitespace |
| Base64.StripPaddingOf | apps/streamlit/niivue_component/__init__.py:76 | padding completing a group is removed again, and nothing else |
| Base64.RoundTrip | apps/streamlit/niivue_component/__init__.py:76 | decoding what the Python encoder writes gives the original bytes, for every byte sequence |
| Base64.EncodeLength | apps/streamlit/niivue_component/__init__.py:76 | four characters per started group of three bytes; only the empty input encodes to "" |
| Base64.InvalidCharFails | apps/streamlit/niivue_component/frontend/test/utils.test.ts:20-24 | any character outside the alphabet, padding and whitespace makes the decode throw |
| Base64.KnownStrings | apps/streamlit/niivue_component/frontend/test/utils.test.ts:14-24 | "" decodes to no bytes; 'not-valid-base64!!!' throws |
| Base64.HelloWorld | apps/streamlit/niivue_component/frontend/test/utils.test.ts:26-33 | 'SGVsbG8gV29ybGQ=' is the encoding of "Hello World" and decodes to it |
| StreamlitComponent.OverlayName | apps/streamlit/niivue_component/__init__.py:92 | a truthy 'name' wins, then 'filename', then 'overlay' |
| StreamlitComponent.CheckOverlay | apps/streamlit/niivue_component/__init__.py:83-95 | an overlay passes its checks exactly when it is valid; a failure's message starts with the overlay's index; a pass carries the overlay's name |
| StreamlitComponent.CheckOverlayCases | apps/streamlit/niivue_component/__init__.py:83-95 | an overlay passes exactly when its 'data' is bytes and it has a 'name' or 'filename'; a passing one keeps its bytes through base64, and an absent colormap or opacity becomes 'red' or 0.5 |
| StreamlitComponent.CheckOverlayPasses | apps/streamlit/niivue_component/__init__.py:83-88 | the failing checks in order, each `ValueError` naming the overlay's index |
| StreamlitComponent.ConvertOverlays | apps/streamlit/niivue_component/__init__.py:79-96 | on success one converted overlay per input |
| StreamlitComponent.ConvertOverlaysOk | apps/streamlit/niivue_component/__init__.py:79-96 | the conversion succeeds exactly when every overlay is valid, and entry i is overlay i converted |
| StreamlitComponent.ConvertOverlaysFirstError | apps/streamlit/niivue_component/__init__.py:81-88 | the error raised is that of the first invalid overlay |
| StreamlitComponent.Call | apps/streamlit/niivue_component/__init__.py:73-109 | the call fails only for a non-empty overlay list; on success the file name, height, view mode and styling pass through, given settings are sent as they are, and an overlay list is sent only when it is non-empty |
| StreamlitComponent.DefaultCall | apps/streamlit/niivue_component/__init__.py:24-109 | every default: no image (""), no overlays (None), 600 pixels, multiplanar, styled, settings {} |
| StreamlitComponent.CallRoundTrip | apps/streamlit/niivue_component/__init__.py:73-109 | the frontend can decode the image's bytes back, its base64 is "" exactly when the image is missing or empty, and the overlays arrive one per given overlay in order, present exactly when some were given |
| StreamlitComponent.NiivueViewer | apps/streamlit/niivue_component/__init__.py:24-110 | the function's loop raises the first failing check or calls the component with exactly the converted arguments |
| StreamlitComponent.ConvertOverlaysFirstErrorFrom | apps/streamlit/niivue_component/__init__.py:81-96 | a failing check after a passing prefix is the error of the whole list |
| StreamlitFrontend.ViewModeTableExact | apps/streamlit/niivue_component/frontend/src/types.ts:13-37 | every allowed `view_mode` has an entry and nothing else does; axial, coronal, sagittal, 3d and multiplanar map one-to-one onto the five slice types |
| StreamlitFrontend.ViewModeSliceTypeCases | apps/streamlit/niivue_component/frontend/src/hooks/useStreamlitNiivue.ts:35-39 | an empty or missing mode keeps the slice type, a listed one takes its entry, any other falls back to AXIAL |
| StreamlitFrontend.HookSettings | apps/streamlit/niivue_component/frontend/src/hooks/useStreamlitNiivue.ts:10-29 | without a settings argument crosshairs and interpolation are on, colorbar and radiological off; a given crosshair flag wins; the settings effect on the hook's own settings changes nothing |
| StreamlitFrontend.SyncSettings | apps/streamlit/niivue_component/frontend/src/hooks/useStreamlitNiivue.ts:42-52 | without an argument nothing changes, and only the four flags can change |
| StreamlitFrontend.SyncSettingsProperties | apps/streamlit/niivue_component/frontend/src/hooks/useStreamlitNiivue.ts:42-52 | each of the four flags takes the given value and keeps its own otherwise; every other field is untouched; syncing twice is syncing once |
| StreamlitFrontend.SyncInitialSettings | apps/streamlit/niivue_component/frontend/src/hooks/useStreamlitNiivue.ts:10-52 | syncing the settings the state was built from changes nothing, and the overlay colormap is 'red' |
| StreamlitFrontend.OverlayIds | apps/streamlit/niivue_component/frontend/src/hooks/useStreamlitNiivue.ts:83 | one ID per overlay, in order |
| StreamlitFrontend.OverlayIdProperties | apps/streamlit/niivue_component/frontend/src/hooks/useStreamlitNiivue.ts:83-87 | an ID joins name, colormap, opacity and data length with '-'; new data of the same length keeps the ID, so no reload happens |
| StreamlitFrontend.OverlayUriIsImage | apps/streamlit/niivue_component/frontend/src/hooks/useStreamlitNiivue.ts:99 | every overlay URI the hook sends is an image type |
| StreamlitFrontend.OverlaySentDefaults | apps/streamlit/niivue_component/frontend/src/hooks/useStreamlitNiivue.ts:95-104 | the sent overlay has the decoded bytes, the colormap or 'red', the opacity or 0.5, and index 0 |
| StreamlitFrontend.SendOverlays | apps/streamlit/niivue_component/frontend/src/hooks/useStreamlitNiivue.ts:94-105 | never more sends than overlays, and all of them when the loop finishes |
| StreamlitFrontend.SendOverlaysOrder | apps/streamlit/niivue_component/frontend/src/hooks/useStreamlitNiivue.ts:94-105 | the loop finishes exactly when every overlay decodes; overlay i is then sent i-th; otherwise sends stop at the first overlay that does not decode |
| StreamlitFrontend.JsRoundNearest | apps/streamlit/niivue_component/frontend/src/hooks/useStreamlitNiivue.ts:120 | `Math.round` lands within half of its argument |
| StreamlitFrontend.ClickFor | apps/streamlit/niivue_component/frontend/src/hooks/useStreamlitNiivue.ts:113-124 | the click carries the millimetre position as given, a given file name, and the first value when there is one |
| StreamlitFrontend.ClickForProperties | apps/streamlit/niivue_component/frontend/src/hooks/useStreamlitNiivue.ts:113-124 | the voxel is rounded to within half a voxel, the mm triple is passed on, the value defaults to 0 and the file name to '' |
| StreamlitFrontend.StreamlitHook.constructor | apps/streamlit/niivue_component/frontend/src/hooks/useStreamlitNiivue.ts:10-32 | the app state built from the arguments' settings, no data or overlay IDs recorded, nothing sent |
| StreamlitFrontend.StreamlitHook.SyncViewMode | apps/streamlit/niivue_component/frontend/src/hooks/useStreamlitNiivue.ts:35-39 | the slice type becomes the view-mode effect's choice |
| StreamlitFrontend.StreamlitHook.SyncSettingsEffect | apps/streamlit/niivue_component/frontend/src/hooks/useStreamlitNiivue.ts:42-52 | without settings nothing changes; otherwise the four flags are synced |
| StreamlitFrontend.StreamlitHook.LoadBase | apps/streamlit/niivue_component/frontend/src/hooks/useStreamlitNiivue.ts:55-73 | empty or unchanged data does nothing; otherwise the data is recorded, the overlay IDs cleared, one canvas initialised and the decoded image sent under the file name or 'image.nii' |
| StreamlitFrontend.StreamlitHook.ReloadOverlays | apps/streamlit/niivue_component/frontend/src/hooks/useStreamlitNiivue.ts:76-108 | only when a reload is needed: the volumes after the first are removed, the overlays sent in order, and the IDs recorded only when all were sent |
| StreamlitFrontend.StreamlitHook.RemoveTrailingVolumes | apps/streamlit/niivue_component/frontend/src/hooks/useStreamlitNiivue.ts:89-91 | one removal per volume after the first; the first stays |
| StreamlitFrontend.StreamlitHook.OnLocationChange | apps/streamlit/niivue_component/frontend/src/hooks/useStreamlitNiivue.ts:112-126 | a click is reported only while the first viewer exists and is loaded |
| StreamlitFrontend.Removals | apps/streamlit/niivue_component/frontend/src/hooks/useStreamlitNiivue.ts:89-91 | `n` removals, each of the last volume |
| StreamlitFrontend.SendAll | apps/streamlit/niivue_component/frontend/src/hooks/useStreamlitNiivue.ts:94-105 | the loop sends exactly what the overlay sequence describes and finishes as it says |
| StreamlitFrontend.PrefixFailure | apps/streamlit/niivue_component/frontend/src/hooks/useStreamlitNiivue.ts:94-105 | a sent prefix followed by an undecodable overlay stops the whole list there |
| StreamlitFrontend.SendOverlaysPrefix | apps/streamlit/niivue_component/frontend/src/hooks/useStreamlitNiivue.ts:94-105 | once sends stop within a prefix, longer lists stop at the same place |
| StreamlitFrontend.OverlayStyleDropped | apps/streamlit/niivue_component/frontend/src/hooks/useStreamlitNiivue.ts:95-104 | the React handler ignores the sent colormap and opacity: an overlay asked for in 'hot' at 0.8 is shown 'red' at 0.5 |
| StreamlitFrontend.CorrectedOverlayKeepsStyle | apps/streamlit/niivue_component/frontend/src/hooks/useStreamlitNiivue.ts:95-104 | the corrected overlay volume keeps the requested style and agrees with `loadImageData`'s overlay |
| StreamlitFrontend.LoadOverlays | apps/streamlit/niivue_component/frontend/src/utils.ts:44-62 | never more volumes than overlays, and exactly one per overlay when the loop finishes |
| StreamlitFrontend.LoadOverlaysOrder | apps/streamlit/niivue_component/frontend/src/utils.ts:44-62 | the loop finishes exactly when every overlay decodes; each loaded volume is its overlay with the defaults applied, in order; a loop that stops has loaded every overlay before the first that does not decode |
| StreamlitFrontend.LoadedOverlayDefaults | apps/streamlit/niivue_component/frontend/src/utils.ts:52-57 | an overlay keeps its name and decoded bytes, takes colormap 'red' when none or an empty one is given and opacity 0.5 when none is given, and keeps any other |
| StreamlitFrontend.LoadImageData | apps/streamlit/niivue_component/frontend/src/utils.ts:5-69 | a load never both retries and rerenders; without a ready viewer the volumes stay as they were; a load that changes them puts the decoded image first, followed by what the overlay loop loaded; it rerenders exactly when the viewer is ready, the data is non-empty and the image and every overlay decode, and then holds one volume per overlay after the image, each with its defaults |
| StreamlitFrontend.LoadImageDataOfEncoded | apps/streamlit/niivue_component/frontend/src/utils.ts:5-69 | an image encoded by the Python side loads as its own bytes, first, replacing whatever the viewer held; no image loads nothing |
| StreamlitFrontend.FirstViewer.constructor | apps/streamlit/niivue_component/frontend/src/utils.ts:23 | the first viewer with the given volumes, no retries, no rerenders |
| StreamlitFrontend.FirstViewer.Load | apps/streamlit/niivue_component/frontend/src/utils.ts:5-69 | the removal loop and the two decode loops end in exactly the outcome `loadImageData` describes |
| StreamlitFrontend.LoadOverlaysPrefix | apps/streamlit/niivue_component/frontend/src/utils.ts:44-62 | once the load loop stops within a prefix, longer lists stop at the same place |
| StreamlitFrontend.LoadAll | apps/streamlit/niivue_component/frontend/src/utils.ts:44-62 | the loop loads exactly what the overlay load function describes |
| StreamlitFrontend.LoadPrefixFailure | apps/streamlit/niivue_component/frontend/src/utils.ts:44-62 | a loaded prefix followed by an undecodable overlay stops the load there |
| JsonText.ShortEscape | niivue-streamlit/app.py:140 | exactly `" \ / b f n r t` are one-letter escapes |
| JsonText.HexDigit | niivue-streamlit/app.py:140 | exactly the digits and the letters a-f of either case are hex digits, each worth less than 16 |
| JsonText.Hex4 | niivue-streamlit/app.py:140 | four hex digits name a code unit below 0x10000; anything else names none |
| JsonText.PairChar | niivue-streamlit/app.py:140 | a high and a low surrogate together name a character beyond the basic plane |
| JsonText.Cons | niivue-streamlit/app.py:140 | a character before a decoded rest, and no text when the rest does not decode |
| JsonText.Unescape | niivue-streamlit/app.py:140 | a literal body decodes to text no longer than itself |
| JsonText.SafeUnescapesToItself | niivue-streamlit/app.py:140 | a body with no quote, backslash or control character stands for itself |
| JsonText.WithoutBackslash | niivue-streamlit/app.py:140 | without a backslash a body parses exactly when it has no quote and no control character, and then stands for itself |
| JsonText.HexChar | niivue-streamlit/app.py:140 | the digit written for a value below 16 reads back as that value |
| JsonText.QuoteChar | niivue-streamlit/app.py:140 | a character that needs no escape is written as itself |
| JsonText.Quote | niivue-streamlit/app.py:140 | a text that needs no escape is its own literal body |
| JsonText.UnescapeQuoteChar | niivue-streamlit/app.py:140 | one escaped character reads back as itself whatever follows |
| JsonText.QuoteRoundTrip | niivue-streamlit/app.py:140 | every text, escaped where it must be, parses back to itself |
| JsonText.Cons2 | niivue-streamlit/app.py:140 | a text before a decoded rest, and no text when the rest does not decode |
| JsonText.SafePrefix | niivue-streamlit/app.py:140 | text that needs no escape passes through unchanged in front of any body, and the whole parses exactly when the rest does |
| JsonText.DoubledBackslash | niivue-streamlit/app.py:140 | a doubled backslash between two texts that need no escape stands for one backslash (`a\\b.nii` is `a\b.nii`) |
| JsonText.UnicodeEscape | niivue-streamlit/app.py:140 | `\u0041.nii` parses to `A.nii` |
| JsonText.BrokenExamples | niivue-streamlit/app.py:140 | a bare quote, a tab, the escape `\q` and a final backslash each make the parse fail |
| StreamlitPage.SearchFrom | niivue-streamlit/app.py:25-41 | the JS changes only to that of a candidate read in full, together with its CSS; the CSS changes only to that of a usable candidate |
| StreamlitPage.BuildFiles | niivue-streamlit/app.py:11-41 | the JS is "" or both files come from one candidate read in full |
| StreamlitPage.FirstFullyReadableWins | niivue-streamlit/app.py:25-36 | the first candidate read in full supplies both files |
| StreamlitPage.NoFullReadKeepsJs | niivue-streamlit/app.py:25-41 | without such a candidate the JS stays what it was |
| StreamlitPage.BuildFilesReady | niivue-streamlit/app.py:11-41 | the app is ready only if some candidate was read in full, and then with that candidate's files; otherwise the JS is "" and the app stops |
| StreamlitPage.ReadBuildFiles | niivue-streamlit/app.py:11-41 | the search loop returns exactly the files the search describes |
| StreamlitPage.AppPage | niivue-streamlit/app.py:98-101 | the filled-in `nifti-data` element parses exactly when there is no upload or its name is a valid string-literal body; the base64 then parses as itself |
| StreamlitPage.AppPagePlaceholders | niivue-streamlit/app.py:237-270 | without an upload both placeholders are ""; with one they hold its name and a base64 that decodes to its bytes |
| StreamlitPage.Initialize | niivue-streamlit/app.py:133-197 | the element parses (every backslash starts a valid escape, no bare quote or control character) exactly when a reply is posted at all, and then the settings come first |
| StreamlitPage.BridgeReply | niivue-streamlit/app.py:114-128 | only `ready` gets a reply, of at most three messages, starting with the settings whenever the element parses |
| StreamlitPage.InitializeShape | niivue-streamlit/app.py:133-196 | no message exactly when the `nifti-data` element does not parse; three exactly when it parses and the parsed base64 is over 1000 characters and decodes, and then a canvas announced by a bare 1 and the decoded bytes under the file name with its escapes decoded |
| StreamlitPage.EncodeJsonSafe | niivue-streamlit/app.py:243-250 | the base64 the app pastes never breaks the JSON |
| StreamlitPage.UnsafeNamePostsNothing | niivue-streamlit/app.py:98-101 | a file name that is no valid literal body (a bare quote, a control character, a backslash starting no escape), pasted unescaped into the JSON, makes the parse throw and the bridge post nothing |
| StreamlitPage.AppUploadReachesViewer | niivue-streamlit/app.py:237-251 | an upload whose name parses and whose base64 is over 1000 characters reaches the viewer as its own bytes under the parsed name, which is the name itself when nothing in it needs escaping; a smaller one or none gets the settings alone; one whose name breaks the literal gets nothing |
| StreamlitPage.EscapedNameReachesViewer | niivue-streamlit/app.py:140-187 | an upload whose name holds a doubled backslash between two texts that need no escape (`a\\b.nii`) is delivered under the name with one backslash (`a\b.nii`) |
| StreamlitPage.Bridge.constructor | niivue-streamlit/app.py:114-128 | the bridge holds the page data and has posted nothing |
| StreamlitPage.Bridge.OnMessage | niivue-streamlit/app.py:114-197 | `ready` posts the initialisation with the parsed values, nothing when the element does not parse, any other message nothing |
| StreamlitPage.FrameHeight | apps/streamlit/niivue_component/frontend/src/NiiVueViewer.tsx:20 | a missing or zero height is 600 |
| StreamlitPage.LoadingText | apps/streamlit/niivue_component/frontend/src/NiiVueViewer.tsx:28-73 | the text names the file exactly when there is data |
| StreamlitPage.ViewerComponent.constructor | apps/streamlit/niivue_component/frontend/src/NiiVueViewer.tsx:13-14 | no error, no frame, nothing reported |
| StreamlitPage.ViewerComponent.Rendered | apps/streamlit/niivue_component/frontend/src/NiiVueViewer.tsx:209-237 | the error panel with its message once a non-empty error was set, the container otherwise (an empty message is falsy) |
| StreamlitPage.ViewerComponent.Render | apps/streamlit/niivue_component/frontend/src/NiiVueViewer.tsx:18-207 | the height is reported when it changed; the iframe is rebuilt when data, file name, CSS, JS or height changed and no error panel replaced the container; a throw records its message, which shows the error panel unless it is empty |
| StreamlitPage.SameBridgeAsApp | apps/streamlit/niivue_component/frontend/src/NiiVueViewer.tsx:94-168 | for the same bytes and name, the component page's bridge posts the same messages as the app's |
| NameDiff.MinLen | packages/niivue-react/src/utility.ts:64 | the length of some name, and no name is shorter |
| NameDiff.CommonPrefixLen | packages/niivue-react/src/utility.ts:65-75 | a prefix length every name shares, with no longer shared prefix up to the bound |
| NameDiff.CommonSuffixLen | packages/niivue-react/src/utility.ts:94-104 | a suffix length every name shares, with no longer shared suffix up to the bound |
| NameDiff.BeforeCutIsSlice | packages/niivue-react/src/utility.ts:78-81 | the character before the prefix cut is what `slice(k - 1, k)` reads |
| NameDiff.BackOffPrefix | packages/niivue-react/src/utility.ts:77-92 | the cut only moves back, every character it passes is in the class, and it stops at the start or before a character outside the class |
| NameDiff.AtSuffixCutIsSlice | packages/niivue-react/src/utility.ts:106-118 | the length-based probe reads `slice(-k, length - k + 1)`; the negative-end probe reads `slice(-k, -k + 1)` |
| NameDiff.BackOffSuffix | packages/niivue-react/src/utility.ts:105-120 | the suffix cut only moves back |
| NameDiff.LengthBasedProbe | packages/niivue-react/src/utility.ts:106-118 | the length-based probe tests exactly the first character of the suffix |
| NameDiff.BackOffSuffixStep | packages/niivue-react/src/utility.ts:106-112 | one loop step: move back when the first suffix character is in the class, stop otherwise |
| NameDiff.BackOffSuffixRun | packages/niivue-react/src/utility.ts:106-120 | every character the suffix back-off passes is in the class |
| NameDiff.BackOffSuffixStops | packages/niivue-react/src/utility.ts:106-120 | the suffix back-off stops at zero or at a character outside the class |
| NameDiff.NegativeEndStopsAtOne | media/main.js:111-125 | with the negative-end probe a one-character suffix is never moved back |
| NameDiff.Cut | packages/niivue-react/src/utility.ts:122 | one entry per name, each `name.slice(start, name.length - end)` |
| NameDiff.CutNothing | packages/niivue-react/src/utility.ts:122 | cuts of 0 at both ends keep every name |
| NameDiff.KeepFromStart | packages/niivue-react/src/utility.ts:122 | a slice from 0 keeps the first characters |
| NameDiff.PrefixOfPrefix | packages/niivue-react/src/utility.ts:67-69 | a shorter prefix is a prefix of the longer one |
| NameDiff.SuffixOfSuffix | packages/niivue-react/src/utility.ts:96-98 | a shorter suffix is a suffix of the longer one |
| NameDiff.SharesPrefixShorter | packages/niivue-react/src/utility.ts:65-75 | a shared prefix stays shared when shortened, so the search may stop at the first shared length |
| NameDiff.SharesSuffixShorter | packages/niivue-react/src/utility.ts:94-104 | a shared suffix stays shared when shortened |
| NameDiff.CommonPrefixLenIs | packages/niivue-react/src/utility.ts:65-75 | the search finds `r` when `r` is shared and `r + 1` is not |
| NameDiff.CommonSuffixLenIs | packages/niivue-react/src/utility.ts:94-104 | the search from the end finds `r` when `r` is shared and `r + 1` is not |
| NameDiff.BackOffPrefixAll | packages/niivue-react/src/utility.ts:76-92 | after the loops in order, every passed character is in some class and the one before the cut is outside the last class |
| NameDiff.BackOffSuffixAll | packages/niivue-react/src/utility.ts:105-120 | the suffix loops in order only move the cut back |
| NameDiff.StartCut | packages/niivue-react/src/utility.ts:64-92 | the prefix cut is within the shortest name |
| NameDiff.EndCut | packages/niivue-react/src/utility.ts:94-120 | the suffix cut is within the shortest name |
| NameDiff.StartCutWithoutPrefix | packages/niivue-react/src/utility.ts:65-92 | with no shared prefix the prefix cut is 0 |
| NameDiff.EndCutFrom | packages/niivue-react/src/utility.ts:94-120 | the suffix cut is the shared suffix length moved back by the suffix loops |
| NameDiff.ReassembleOne | packages/niivue-react/src/utility.ts:122 | a name is its shared prefix, its kept middle and its shared suffix |
| NameDiff.StripCutsShared | packages/niivue-react/src/utility.ts:64-120 | both final cuts lie inside text every name shares |
| NameDiff.CutReassembles | packages/niivue-react/src/utility.ts:122 | cutting shared ends off loses nothing else; names too short for both cuts become empty |
| NameDiff.StripReassembles | packages/niivue-react/src/utility.ts:60-122 | a pass removes only shared text: each long enough name is the first name's prefix, its kept part and the first name's suffix; the others become empty |
| NameDiff.StartCutBacksOff | packages/niivue-react/src/utility.ts:76-92 | the characters given back to the names are digits, dots or letters, and the character before the cut is not a letter |
| NameDiff.BackOffSuffixAllStops | packages/niivue-react/src/utility.ts:105-120 | the last suffix loop stops at a character outside its class |
| NameDiff.EndCutStops | packages/niivue-react/src/utility.ts:105-120 | the suffix cut never starts inside a run of lower-case letters |
| NameDiff.Folders | packages/niivue-react/src/utility.ts:126 | each name's part before its last '/' |
| NameDiff.FileNames | packages/niivue-react/src/utility.ts:128 | each name's part after its last '/' |
| NameDiff.JoinedName | packages/niivue-react/src/utility.ts:131-135 | ' - ' joins folder and file only when both are non-empty; otherwise the non-empty one (or nothing) |
| NameDiff.JoinAll | packages/niivue-react/src/utility.ts:130-136 | one joined name per entry, in order |
| NameDiff.Difference | packages/niivue-react/src/utility.ts:60-139 | one result per name |
| NameDiff.DifferenceJoins | packages/niivue-react/src/utility.ts:124-137 | with the recursion, name i joins the folder and file differences of pass i |
| NameDiff.AllSharePrefix | packages/niivue-react/src/utility.ts:67-73 | the inner loop answers exactly whether every name shares the prefix |
| NameDiff.LongestCommonPrefix | packages/niivue-react/src/utility.ts:64-75 | the outer loop ends at the longest shared prefix |
| NameDiff.AllShareSuffix | packages/niivue-react/src/utility.ts:96-102 | the inner loop answers exactly whether every name shares the suffix |
| NameDiff.LongestCommonSuffix | packages/niivue-react/src/utility.ts:94-104 | the outer loop ends at the longest shared suffix |
| NameDiff.SkipBackPrefix | packages/niivue-react/src/utility.ts:77-92 | the `while` loop computes the prefix back-off |
| NameDiff.SkipBackSuffix | packages/niivue-react/src/utility.ts:106-120 | the `while` loop computes the suffix back-off |
| NameDiff.CutAll | packages/niivue-react/src/utility.ts:122 | the `map` computes the cut of every name |
| NameDiff.RewriteJoined | packages/niivue-react/src/utility.ts:130-136 | the `forEach` leaves every name joined from its folder and file differences |
| ReactUtility.PrefixCut | packages/niivue-react/src/utility.ts:64-92 | the three loops end at the prefix cut of the React rules (digits and '.', then letters of either case) |
| ReactUtility.SuffixCut | packages/niivue-react/src/utility.ts:94-120 | the three loops end at the suffix cut of the React rules (digits, then lower-case letters) |
| ReactUtility.Pass | packages/niivue-react/src/utility.ts:64-122 | the names with both cuts applied |
| ReactUtility.DifferenceInNames | packages/niivue-react/src/utility.ts:60-139 | the method computes the specified difference, recursion included |
| ReactUtility.DifferenceInNamesLength | packages/niivue-react/src/utility.ts:60-63 | one result per name; no names give no results |
| ReactUtility.BaseName | packages/niivue-react/src/utility.ts:7-18 | a viewer with neither volumes nor meshes has the empty base name; any other base name is the first volume's name or, without volumes, the first mesh's |
| ReactUtility.BaseNames | packages/niivue-react/src/utility.ts:7-18 | one base name per viewer, in order: its first volume, else its first mesh, else empty |
| ReactUtility.PickName | packages/niivue-react/src/utility.ts:27-56 | a name that is not duplicated, and a viewer with a single volume, keep the base name; a viewer with overlays shows its base name or its last volume's |
| ReactUtility.Names | packages/niivue-react/src/utility.ts:27-56 | one display name per viewer |
| ReactUtility.UniqueNamesKept | packages/niivue-react/src/utility.ts:27-33 | a viewer whose base name occurs once is shown by its base name |
| ReactUtility.CountNames | packages/niivue-react/src/utility.ts:21-24 | the map has exactly the base names as keys, each with its number of occurrences |
| ReactUtility.GetNames | packages/niivue-react/src/utility.ts:5-57 | the method returns the specified display names |
| ReactUtility.IsImageType | packages/niivue-react/src/utility.ts:141-160 | none exactly when no listed extension ends the name; otherwise a listed extension that ends it |
| ReactUtility.IsImageTypeExamples | packages/niivue-react/src/utility.ts:141-160 | 'brain.nii.gz' is found as '.nii.gz' ('.nii' does not end it); 'notes.txt' is no image |
| ReactUtility.NoFolder | packages/niivue-react/src/utility.ts:126-128 | a name without '/' has an empty folder part and is its own file part |
| ReactUtility.PassWith | packages/niivue-react/src/utility.ts:122 | without the recursion the result is the names with the two cuts applied |
| ReactUtility.TwoTestsStart | packages/niivue-react/src/test/differenceInNames.test.ts:6 | 'test1' and 'test2' share 'test', which the letter loop gives back: prefix cut 0 |
| ReactUtility.TwoTestsEnd | packages/niivue-react/src/test/differenceInNames.test.ts:6 | 'test1' and 'test2' share no suffix |
| ReactUtility.PassTwoTests | packages/niivue-react/src/test/differenceInNames.test.ts:6 | one pass keeps 'test1' and 'test2' whole |
| ReactUtility.PassEmptyFolders | packages/niivue-react/src/utility.ts:127 | empty folder parts stay empty |
| ReactUtility.TestsHaveNoFolders | packages/niivue-react/src/utility.ts:126-128 | 'test1' and 'test2' have empty folders and are their own file names |
| ReactUtility.JoinTests | packages/niivue-react/src/utility.ts:130-136 | with empty folders the join is the file names |
| ReactUtility.RecursionWithoutFolders | packages/niivue-react/src/utility.ts:124-137 | a pass giving 'test1' and 'test2' is also the final result with the recursion |
| ReactUtility.QsmStart | packages/niivue-react/src/test/differenceInNames.test.ts:11 | 'qsm_test1' and 'qsm_test2' share 8 characters; the letter loop stops at '_', so the prefix cut is 4 |
| ReactUtility.QsmEnd | packages/niivue-react/src/test/differenceInNames.test.ts:11 | the two names share no suffix |
| ReactUtility.NiiStart | packages/niivue-react/src/test/differenceInNames.test.ts:10 | 'test1.nii' and 'test2.nii' get prefix cut 0 |
| ReactUtility.NiiEnd | packages/niivue-react/src/test/differenceInNames.test.ts:10 | they share the suffix '.nii', which no loop gives back: suffix cut 4 |
| ReactUtility.QsmStrip | packages/niivue-react/src/test/differenceInNames.test.ts:11 | the pass cuts 4 characters off the front |
| ReactUtility.QsmCut | packages/niivue-react/src/test/differenceInNames.test.ts:11 | that cut leaves 'test1' and 'test2' |
| ReactUtility.TestExampleSharedPrefix | packages/niivue-react/src/test/differenceInNames.test.ts:11 | `differenceInNames(['qsm_test1', 'qsm_test2'])` is ['test1', 'test2'] |
| ReactUtility.NiiStrip | packages/niivue-react/src/test/differenceInNames.test.ts:10 | the pass cuts 4 characters off the end |
| ReactUtility.NiiCut | packages/niivue-react/src/test/differenceInNames.test.ts:10 | that cut leaves 'test1' and 'test2' |
| ReactUtility.TestExampleSharedExtension | packages/niivue-react/src/test/differenceInNames.test.ts:10 | `differenceInNames(['test1.nii', 'test2.nii'])` is ['test1', 'test2'] |
| SrcUtility.PrefixCut | niivue/src/utility.ts:6-34 | the loops end at the prefix cut of the older rules (digits and '.', then lower-case letters only) |
| SrcUtility.DifferenceInNames | niivue/src/utility.ts:2-81 | the method computes the specified difference under the older rules, recursion included; its suffix loops (36-62) are the React package's `SuffixCut` |
| SrcUtility.IsImageType | niivue/src/utility.ts:83-98 | none exactly when no extension of the shorter list ends the name; otherwise one that does, and then the React package's test accepts the name too |
| SrcUtility.ListedInReact | niivue/src/utility.ts:83-98 | every extension of the older list is on the React package's list |
| SrcUtility.MincIsNotAnImageType | niivue/src/utility.ts:83-98 | a '.mnc' name is no image type in the older list |
| MetaImage.MinimalHeaderMHA | packages/niivue-react/src/components/NiiVueCanvas.tsx:100-109 | no header exactly when the dialog answer is empty |
| MetaImage.FieldLines | packages/niivue-react/src/components/NiiVueCanvas.tsx:107 | fields without line breaks come back as the header's five lines |
| MetaImage.DigitsOnOneLine | packages/niivue-react/src/components/NiiVueCanvas.tsx:105-107 | a decimal number holds no line break |
| MetaImage.LastTokenOnOneLine | packages/niivue-react/src/components/NiiVueCanvas.tsx:106 | the upper-cased last token of a one-line answer holds no line break |
| MetaImage.HeaderLines | packages/niivue-react/src/components/NiiVueCanvas.tsx:100-109 | a one-line answer gives exactly five lines: ObjectType, NDims as the number of spaces, DimSize as the answer, MET_ plus the upper-cased last token, the data file |
| MetaImage.DefaultTokens | packages/niivue-react/src/components/NiiVueCanvas.tsx:112 | the default answer is the tokens 64, 64, 39, float |
| MetaImage.UpperFloat | packages/niivue-react/src/components/NiiVueCanvas.tsx:106 | 'float' upper-cases to 'FLOAT' |
| MetaImage.DefaultHeader | packages/niivue-react/src/components/NiiVueCanvas.tsx:100-113 | the default answer gives NDims 3 and element type MET_FLOAT |
| NiiVueCanvas.Find | packages/niivue-react/src/components/NiiVueCanvas.tsx:158 | `indexOf`: the first index where the pattern occurs, none when it occurs nowhere |
| NiiVueCanvas.FindAbsent | packages/niivue-react/src/components/NiiVueCanvas.tsx:158 | a pattern with a character the string lacks is not found |
| NiiVueCanvas.ReplaceFirst | packages/niivue-react/src/components/NiiVueCanvas.tsx:158 | `replace` with a string pattern: unchanged when absent, else one occurrence replaced |
| NiiVueCanvas.ImaToDcmKeeps | packages/niivue-react/src/components/NiiVueCanvas.tsx:156-162 | a name without '.ima' or '.IMA' keeps its name |
| NiiVueCanvas.FindFirst | packages/niivue-react/src/components/NiiVueCanvas.tsx:158 | the first occurrence is what `indexOf` returns |
| NiiVueCanvas.DotOnlyAfter | packages/niivue-react/src/components/NiiVueCanvas.tsx:158 | in a dotless stem followed by more text, a dotted pattern cannot start inside the stem |
| NiiVueCanvas.ImaToDcmFirstOnly | packages/niivue-react/src/components/NiiVueCanvas.tsx:156-162 | only the first '.ima' becomes '.dcm' |
| NiiVueCanvas.ImaToDcmUpper | packages/niivue-react/src/components/NiiVueCanvas.tsx:160-161 | a name ending in '.IMA' ends in '.dcm' afterwards |
| NiiVueCanvas.Renamed | packages/niivue-react/src/components/NiiVueCanvas.tsx:155-162 | a list stays a list of the same length; a single name stays single |
| NiiVueCanvas.DicomFiles | packages/niivue-react/src/components/NiiVueCanvas.tsx:169-172 | one loader entry per name, pairing name i with data entry i |
| NiiVueCanvas.SharedRoute | packages/niivue-react/src/components/NiiVueCanvas.tsx:155-214 | from the `.ima` rename on, a load never throws and never uses the MINC or image-URL loaders, and a list becomes a DICOM series with one entry per name |
| NiiVueCanvas.ReactRoute | packages/niivue-react/src/components/NiiVueCanvas.tsx:134-214 | the React `loadVolume` throws exactly for a list of names, with the `toLowerCase` error |
| NiiVueCanvas.SrcRoute | niivue/src/components/NiiVueCanvas.tsx:88-136 | the older `loadVolume` never throws and never uses the MINC or image-URL loaders; a list becomes a DICOM series with one entry per name |
| NiiVueCanvas.OldestRoute | niivue/components/NiiVueCanvas.ts:104-134 | the oldest `loadVolume` throws exactly for a list, with the `endsWith` error, and never loads DICOM, MINC or an image URL |
| NiiVueCanvas.ReactLoad | packages/niivue-react/src/components/NiiVueCanvas.tsx:134-214 | with the React package's image-type test, a load throws exactly for a list |
| NiiVueCanvas.SrcLoad | niivue/src/components/NiiVueCanvas.tsx:88-136 | with the older package's image-type test, a load never throws and loads a list as DICOM |
| NiiVueCanvas.ListRoutes | packages/niivue-react/src/components/NiiVueCanvas.tsx:134-178 | a list of names throws in the React component and is a DICOM series of the renamed names in the older one |
| NiiVueCanvas.CorrectedListMatchesSrc | niivue/src/components/NiiVueCanvas.tsx:88-110 | the corrected React routing agrees with the older component on every list |
| NiiVueCanvas.BrowserFolderRoutes | packages/niivue-react/src/components/NiiVueCanvas.tsx:134-178 | a browser folder throws as written and loads as one DICOM series with each file's bytes when corrected |
| NiiVueCanvas.ReactFirstRoutes | packages/niivue-react/src/components/NiiVueCanvas.tsx:134-178 | a MINC name with data goes to the MINC loader; an image name without data, not '.dcm', loads from its URL; a '.dcm' name becomes a one-entry DICOM series |
| NiiVueCanvas.ReactFallsThrough | packages/niivue-react/src/components/NiiVueCanvas.tsx:139-214 | a MINC name without data falls through; past the first two tests React and the older component agree except on '.raw' |
| NiiVueCanvas.RawRoutes | packages/niivue-react/src/components/NiiVueCanvas.tsx:179-190 | '.raw' with an empty answer loads nothing; otherwise a volume named with '.mha' appended, with the file's data in the older components and without it in React |
| NiiVueCanvas.DataOrUrl | niivue/components/NiiVueCanvas.ts:104-134 | image names load from data or URL, other names as a mesh from data or URL, in the oldest and the older component |
| NiiVueCanvas.BufferHasNoLength | niivue/src/components/NiiVueCanvas.tsx:118-135 | a buffer of a mesh file takes the mesh route; text data takes the data-volume route |
| NiiVueCanvas.ApplyScale | niivue/components/NiiVueCanvas.ts:136-142 | a manual scaling replaces volume 0's window and nothing else; automatic changes nothing |
| NiiVueCanvas.ApplyScaleIdempotent | niivue/components/NiiVueCanvas.ts:136-142 | scaling twice is scaling once |
| NiiVueCanvas.IntensityAndLocationCases | niivue/components/NiiVueCanvas.ts:144-154 | 'a=b' sets intensity b and location a; a text without '=' keeps the intensity and is the location |
| NiiVueCanvas.IntensityAndLocationTwoSigns | niivue/components/NiiVueCanvas.ts:144-154 | with two '=' the intensity stays and the last piece is the location |
| NiiVueCanvas.OldestCanvas.constructor | niivue/components/NiiVueCanvas.ts:16-30 | the given viewers, no first viewer, empty intensity and location |
| NiiVueCanvas.OldestCanvas.FinishLoad | niivue/components/NiiVueCanvas.ts:32-47 | a viewer with a body is routed; unless that throws it becomes loaded, its body is cleared and it becomes the first viewer when none was; a first viewer once set is never replaced, and a newly set one is the viewer just loaded |
| NiiVueCanvas.OldestCanvas.OnLocationChange | niivue/components/NiiVueCanvas.ts:39-40 | the signals become the intensity and location the text gives |
| NiiVueCanvas.OldestCanvas.Render | niivue/components/NiiVueCanvas.ts:49-59 | a loaded viewer with volumes gets the scaling applied; otherwise nothing changes |
| KeyboardShortcuts.CoreShortcutsFlagged | packages/niivue-react/src/constants/keyboardShortcuts.ts:19-72 | every entry of the library's table is flagged as handled by the library |
| KeyboardShortcuts.UiShortcutsNotFlagged | packages/niivue-react/src/constants/keyboardShortcuts.ts:78-160 | no entry of the interface's table is flagged |
| KeyboardShortcuts.SharedShortcutNames | packages/niivue-react/src/constants/keyboardShortcuts.ts:60-159 | only the two crosshair names appear in both tables |
| KeyboardShortcuts.AllShortcutsOverride | packages/niivue-react/src/constants/keyboardShortcuts.ts:208-211 | in the combined table the shared names take the interface's Shift+U and Shift+D over the library's Ctrl+U and Ctrl+D |
| KeyboardShortcuts.Modifiers | packages/niivue-react/src/constants/keyboardShortcuts.ts:168-172 | at most three modifier words |
| KeyboardShortcuts.DisplayKey | packages/niivue-react/src/constants/keyboardShortcuts.ts:175-183 | a leading 'Arrow' is dropped, a single character is upper-cased, longer keys are kept |
| KeyboardShortcuts.FormatShortcut | packages/niivue-react/src/constants/keyboardShortcuts.ts:165-188 | the display text ends with the displayed key, starts with 'Ctrl+' when Ctrl is asked for, and is the key alone without modifiers |
| KeyboardShortcuts.FormatShortcutParts | packages/niivue-react/src/constants/keyboardShortcuts.ts:167-188 | the display text splits back on '+' into the modifiers in the order Ctrl, Shift, Alt, then the displayed key |
| KeyboardShortcuts.FormatCtrlLetter | packages/niivue-react/src/constants/keyboardShortcuts.ts:165-188 | a lower-case letter with Ctrl displays as 'Ctrl+' and its capital |
| KeyboardShortcuts.FormatArrow | packages/niivue-react/src/constants/keyboardShortcuts.ts:176-178 | an arrow key displays without 'Arrow' |
| KeyboardShortcuts.LowerUpper | packages/niivue-react/src/constants/keyboardShortcuts.ts:197 | lower-casing an upper-cased key is lower-casing the key |
| KeyboardShortcuts.Matches | packages/niivue-react/src/constants/keyboardShortcuts.ts:196-203 | a matching event's key has the shortcut key's length and agrees with it letter by letter ignoring case |
| KeyboardShortcuts.MatchesProperties | packages/niivue-react/src/constants/keyboardShortcuts.ts:196-203 | matching ignores the key's case, treats Meta as Ctrl and fails when any modifier differs |
| KeyboardDispatch.Bound | packages/niivue-react/src/hooks/useKeyboardShortcuts.ts:49-154 | each branch tests the entry the combined table holds |
| KeyboardDispatch.OrderInTables | packages/niivue-react/src/hooks/useKeyboardShortcuts.ts:49-154 | every name the handler tests is in the combined table with that entry |
| KeyboardDispatch.Firing | packages/niivue-react/src/hooks/useKeyboardShortcuts.ts:49-154 | exactly the given handlers whose shortcut matches the event |
| KeyboardDispatch.FirstIn | packages/niivue-react/src/hooks/useKeyboardShortcuts.ts:49-154 | none exactly when no name of the order fires; otherwise a name of the order that fires |
| KeyboardDispatch.FirstInIsFirst | packages/niivue-react/src/hooks/useKeyboardShortcuts.ts:49-154 | the `else if` chain picks the first firing name |
| KeyboardDispatch.FirstInAfter | packages/niivue-react/src/hooks/useKeyboardShortcuts.ts:49-154 | branches that do not fire are passed over |
| KeyboardDispatch.SingleKeyMatch | packages/niivue-react/src/constants/keyboardShortcuts.ts:197 | a one-character key matches only the same letter in either case |
| KeyboardDispatch.IsTyping | packages/niivue-react/src/hooks/useKeyboardShortcuts.ts:42-46 | an editable element always counts as typing; a select, button, canvas or div does not, nor a tag name in lower case, which the exact comparison misses |
| KeyboardDispatch.Dispatch | packages/niivue-react/src/hooks/useKeyboardShortcuts.ts:41-155 | nothing runs while typing in a field; a handler that runs is given, in the order and matches the event |
| KeyboardDispatch.ShortcutListener.constructor | packages/niivue-react/src/hooks/useKeyboardShortcuts.ts:37 | no listener, nothing run, nothing prevented |
| KeyboardDispatch.ShortcutListener.Mount | packages/niivue-react/src/hooks/useKeyboardShortcuts.ts:38-157 | the listener is installed exactly when shortcuts are enabled |
| KeyboardDispatch.ShortcutListener.Cleanup | packages/niivue-react/src/hooks/useKeyboardShortcuts.ts:159-161 | the listener is removed and nothing else changes |
| KeyboardDispatch.ShortcutListener.KeyDown | packages/niivue-react/src/hooks/useKeyboardShortcuts.ts:41-155 | at most one handler runs, the dispatched one, and the default is prevented exactly when it does |
| KeyboardDispatch.OrderSplit | packages/niivue-react/src/hooks/useKeyboardShortcuts.ts:136-154 | hide-interface comes after all other U-free branches and before the crosshair ones |
| KeyboardDispatch.UiUKeys | packages/niivue-react/src/constants/keyboardShortcuts.ts:141-154 | only the hide-interface and superior-crosshair entries use U |
| KeyboardDispatch.CoreUKeys | packages/niivue-react/src/constants/keyboardShortcuts.ts:60-65 | only the library's superior-crosshair entry uses U |
| KeyboardDispatch.BoundUKeys | packages/niivue-react/src/hooks/useKeyboardShortcuts.ts:136-147 | only two branches test U |
| KeyboardDispatch.UKeyDispatch | packages/niivue-react/src/hooks/useKeyboardShortcuts.ts:136-147 | a plain U outside a field runs the hide-interface handler; Shift+U runs the superior-crosshair handler |
| KeyboardDispatch.PlainUFiring | packages/niivue-react/src/hooks/useKeyboardShortcuts.ts:136-147 | an unmodified u or U matches the hide-interface entry and no other bound entry |
| KeyboardDispatch.ShiftUFiring | packages/niivue-react/src/hooks/useKeyboardShortcuts.ts:136-147 | Shift+u or Shift+U matches the superior-crosshair entry and no other bound entry |
| KeyboardDispatch.PlainUDispatch | packages/niivue-react/src/hooks/useKeyboardShortcuts.ts:136-147 | with both handlers bound, an unmodified u or U outside a text field runs only the hide-interface handler |
| KeyboardDispatch.ShiftUDispatch | packages/niivue-react/src/hooks/useKeyboardShortcuts.ts:136-147 | with both handlers bound, Shift+u or Shift+U outside a text field runs only the superior-crosshair handler |
| MenuElements.Toggled | packages/niivue-react/src/components/MenuElements.tsx:53-56 | the arrow opens its own menu exactly when that menu was not open, and never leaves another menu open |
| MenuElements.ToggledTwice | packages/niivue-react/src/components/MenuElements.tsx:53-56 | two clicks restore the state when that menu or none was open, and close all when another was open |
| MenuElements.MenuBar.constructor | packages/niivue-react/src/components/MenuElements.tsx:4 | no menu open, no handler run |
| MenuElements.MenuBar.WindowClick | packages/niivue-react/src/components/MenuElements.tsx:6-13 | a click outside groups, dialogs and dropdown arrows closes the menus; others change nothing |
| MenuElements.MenuBar.EntryClick | packages/niivue-react/src/components/MenuElements.tsx:21-24 | the entry's handler runs, then the menus close unless it keeps them open |
| MenuElements.MenuBar.MainClick | packages/niivue-react/src/components/MenuElements.tsx:43-46 | the menus close and the item's handler runs when it has one |
| MenuElements.MenuBar.DropdownClick | packages/niivue-react/src/components/MenuElements.tsx:53-56 | the active menu toggles and no handler runs |
| MenuElements.BoolSignal.constructor | packages/niivue-react/src/components/MenuElements.tsx:226-228 | the signal holds the given value |
| MenuElements.BoolSignal.Toggle | packages/niivue-react/src/components/MenuElements.tsx:226-228 | the value is negated |
| MenuElements.ImageSelectMain | packages/niivue-react/src/components/MenuElements.tsx:170-173 | the menus close, no handler runs and the state flips |
| MenuElements.ImageSelectDropdown | packages/niivue-react/src/components/MenuElements.tsx:179-183 | the menu toggles and the state becomes true |
| AppState.Over | packages/niivue-react/src/components/AppProps.ts:31-38 | a spread key takes the later value when present, else keeps the earlier |
| AppState.UseAppState | packages/niivue-react/src/components/AppProps.ts:29-50 | no viewers, nothing selected, no selection mode, the whole UI shown, all views, no location, nothing synced; the settings are the given ones with a complete menu record |
| AppState.MergeSettings | packages/niivue-react/src/components/AppProps.ts:29-38 | the merged settings differ from the given ones only in their menu items, which always form a complete record |
| AppState.MergeSettingsKeeps | packages/niivue-react/src/components/AppProps.ts:29-38 | every given field and menu key is kept, missing menu keys are shown, the menu record is complete, and merging twice is merging once |
| Presets.BuiltinPresetValues | packages/niivue-react/src/presets.ts:29-85 | the four built-in presets and the fMRI and phase values, phase overlays at -pi..pi |
| Presets.PresetsKey | packages/niivue-react/src/presets.ts:97-109 | one of the two storage keys |
| Presets.KeysDiffer | packages/niivue-react/src/presets.ts:104-107 | VS Code and standalone presets are stored under different keys |
| Presets.Load | packages/niivue-react/src/presets.ts:97-114 | nothing stored, an empty text or text that does not parse loads as no presets |
| Presets.Save | packages/niivue-react/src/presets.ts:121-135 | a successful save writes only the environment's key; a failed one changes nothing |
| Presets.SetVscodePresets | packages/niivue-react/src/presets.ts:140-146 | the VS Code presets become the list and standalone presets are untouched |
| Presets.SaveLoad | packages/niivue-react/src/presets.ts:97-135 | saving then loading gives back the list in order and leaves the other environment's list alone |
| Presets.CreateUserPreset | packages/niivue-react/src/presets.ts:151-167 | the given fields verbatim and the clock's ISO time as creation time |
| Presets.CreatedIdShape | packages/niivue-react/src/presets.ts:159 | every id is 'user_' followed by digits |
| Presets.RemoveId | packages/niivue-react/src/presets.ts:174 | no longer than the list; holds exactly the presets with other ids |
| Presets.RemoveIdAppend | packages/niivue-react/src/presets.ts:174 | the filter splits over concatenation, so order is kept |
| Presets.RemoveIdAbsent | packages/niivue-react/src/presets.ts:174 | a list without the id is unchanged |
| Presets.RemoveIdTwice | packages/niivue-react/src/presets.ts:174 | filtering twice is filtering once |
| Presets.DeleteUserPreset | packages/niivue-react/src/presets.ts:172-176 | after a successful delete the list holds exactly the presets with other ids |
| Presets.SameMillisecondDelete | packages/niivue-react/src/presets.ts:159-176 | two presets created in the same millisecond share an id, and deleting one deletes both |
| Menu.ModeFor | packages/niivue-react/src/components/Menu.tsx:504-512 | NONE exactly when selection is off; MULTIPLE exactly when on with multiple; SINGLE otherwise |
| Menu.AllIndices | packages/niivue-react/src/components/Menu.tsx:210 | the indices 0 to n - 1 in order |
| Menu.ValidSelection | packages/niivue-react/src/components/Menu.tsx:514-528 | no instances change nothing; SINGLE keeps a one-element selection and otherwise selects the first; MULTIPLE or NONE keeps a non-empty selection and otherwise selects all |
| Menu.ValidSelectionStable | packages/niivue-react/src/components/Menu.tsx:514-528 | a repaired selection needs no further repair |
| Menu.SelectedIndices | packages/niivue-react/src/components/Menu.tsx:57-61 | existing indices in increasing order: all of them with no mode or no selection, else exactly the selected ones |
| Menu.Chosen | packages/niivue-react/src/components/Menu.tsx:59 | the filter's indices of the range, in increasing order |
| Menu.Selected | packages/niivue-react/src/components/Menu.tsx:57-61 | the instances at the selected indices, in array order |
| Menu.StaleSelectionSelectsNothing | packages/niivue-react/src/components/Menu.tsx:57-61 | a selection naming no existing instance selects no instance |
| Menu.TargetIndex | packages/niivue-react/src/components/Menu.tsx:127-134 | the last instance with no mode or no selection, else the last selected index |
| Menu.NOverlays | packages/niivue-react/src/components/Menu.tsx:65-77 | volumes beyond the first, else the first mesh's layer count, else 0 |
| Menu.ColorScaleOverlay | packages/niivue-react/src/components/Menu.tsx:192-201 | entry k opens overlay k with volumes, layer k - 1 with a mesh alone, and 0 with neither |
| Menu.LastColorScaleOverlay | packages/niivue-react/src/components/Menu.tsx:203-206 | the overlay count, less one when the first instance has a mesh |
| Menu.ColorScaleEntries | packages/niivue-react/src/components/Menu.tsx:192-206 | each entry opens an existing volume, or an existing layer of the first mesh; the "ColorScale" item opens the last entry's overlay when the instance has volumes or meshes but not both, and the one before it when it has both |
| Menu.ColormapDefaults | packages/niivue-react/src/components/Menu.tsx:244-258 | only colormaps change: volume 0 takes a non-empty volume colormap, volume 1 a non-empty overlay colormap, others stay |
| Menu.GraphDefaults | packages/niivue-react/src/components/Menu.tsx:269-288 | the graph is untouched unless automatic sizing or forced rendering is named; a named sizing is applied |
| Menu.GraphValuesNeedSizing | packages/niivue-react/src/components/Menu.tsx:270-286 | graph values alone are ignored, and applied together with automatic sizing |
| Menu.OverlayDefaultsOn | packages/niivue-react/src/components/Menu.tsx:294-311 | a range end changes only where it still equals the data extreme or 0; a non-empty colormap and a given opacity replace the volume's; nothing else changes |
| Menu.PresetOn | packages/niivue-react/src/components/Menu.tsx:244-314 | only colormaps, display ranges and opacities of volumes change; meshes, calls and the volume count stay |
| Menu.PresetOnTwice | packages/niivue-react/src/components/Menu.tsx:244-314 | applying a preset a second time changes nothing more |
| Menu.ColormapDefaultsTwice | packages/niivue-react/src/components/Menu.tsx:244-257 | setting the volume and overlay default colormaps a second time changes nothing |
| Menu.OverlayAgain | packages/niivue-react/src/components/Menu.tsx:291-313 | reapplying the overlay defaults to their own result changes nothing, even when the colormap was reset in between, as long as the defaults name a colormap or the reset kept the one they left |
| Menu.PhasePresetRange | packages/niivue-react/src/presets.ts:47-61 | the phase preset colours volume 0 hsv, scales a full-range volume to -pi..pi and keeps a user-set range |
| Menu.PresetOnEach | packages/niivue-react/src/components/Menu.tsx:246-313 | the `forEach` changes exactly the selected instances by the preset |
| Menu.MenuState.constructor | packages/niivue-react/src/components/Menu.tsx:38-52 | the signals start from the settings and user presets load from storage |
| Menu.MenuState.ApplySelectionModeChange | packages/niivue-react/src/components/Menu.tsx:504-512 | the mode becomes the one the two checkboxes give, nothing else changes |
| Menu.MenuState.EnsureValidSelection | packages/niivue-react/src/components/Menu.tsx:514-528 | the selection becomes its repair, nothing else changes |
| Menu.MenuState.SelectAll | packages/niivue-react/src/components/Menu.tsx:208-211 | multiple selection with every index selected |
| Menu.MenuState.ApplySettings | packages/niivue-react/src/components/Menu.tsx:228-242 | each setting the preset defines replaces the signal, the others stay |
| Menu.MenuState.ApplyView | packages/niivue-react/src/components/Menu.tsx:261-267 | a defined slice type and UI level replace the view's |
| Menu.MenuState.ApplyPreset | packages/niivue-react/src/components/Menu.tsx:226-321 | settings and view as defined, each selected instance changed by the preset, the rest untouched |
| Menu.MenuState.SaveCurrentAsPreset | packages/niivue-react/src/components/Menu.tsx:323-358 | a blank name only alerts; otherwise exactly one preset with the current settings and view is appended and saved, the inputs cleared, the dialog closed and a confirmation shown |
| Menu.MenuState.DeletePreset | packages/niivue-react/src/components/Menu.tsx:360-363 | storage loses the presets with the id and the list shown is reloaded from it |
| Menu.SavedPresetIsStoredLast | packages/niivue-react/src/components/Menu.tsx:349-351 | reading storage after a save gives the old list with the new preset last |
| VolumePanel.DispName | packages/niivue-react/src/components/Volume.tsx:26 | a name of at most 20 characters is shown whole; a longer one as '...' and its last 20 characters |
| SrcVolume.DispName | niivue/src/components/Volume.ts:18 | the Preact card shows the same name as the React card: the whole name up to 20 characters, else '...' and its last 20 |
| VolumePanel.Without | packages/niivue-react/src/components/Volume.tsx:123 | exactly the selected indices other than the card's |
| VolumePanel.WithoutAbsent | packages/niivue-react/src/components/Volume.tsx:123 | a selection without the card is unchanged |
| VolumePanel.ToggleMember | packages/niivue-react/src/components/Volume.tsx:122-126 | the card is in the result exactly when it was not selected; other indices keep their membership |
| VolumePanel.ToggleMemberTwice | packages/niivue-react/src/components/Volume.tsx:122-126 | two clicks restore a selection that did not hold the card |
| VolumePanel.WithoutAppend | packages/niivue-react/src/components/Volume.tsx:123-125 | removing the card just appended gives back the selection |
| VolumePanel.WithoutSplit | packages/niivue-react/src/components/Volume.tsx:123 | the filter splits over concatenation |
| VolumePanel.SelectAfterClick | packages/niivue-react/src/components/Volume.tsx:118-128 | SINGLE selects only the card, MULTIPLE toggles it, no mode changes nothing |
| VolumePanel.Move | packages/niivue-react/src/test/reorderImages.test.ts:20-47 | the dragged card lands at the target, the cards are a permutation, and a move onto itself changes nothing |
| VolumePanel.MoveShifts | packages/niivue-react/src/test/reorderImages.test.ts:20-47 | cards between the two positions shift one place toward the old position, the rest stay |
| VolumePanel.MoveFirstToLast | packages/niivue-react/src/test/reorderImages.test.ts:20-26 | moving the first of three to position 2 gives the second, the third, the first |
| VolumePanel.MoveLastToFirst | packages/niivue-react/src/test/reorderImages.test.ts:28-34 | moving the last of three to position 0 gives the third, the first, the second |
| VolumePanel.MoveOneRight | packages/niivue-react/src/test/reorderImages.test.ts:36-47 | moving the second of four to position 2 swaps it with the third |
| VolumePanel.VolumeCard.constructor | packages/niivue-react/src/components/Volume.tsx:19-32 | the given selection and instances, not playing, not editing, no drop highlight |
| VolumePanel.VolumeCard.SelectClick | packages/niivue-react/src/components/Volume.tsx:118-128 | the selection becomes its value after the click; nothing else changes |
| VolumePanel.VolumeCard.StopPlaybackEffect | packages/niivue-react/src/components/Volume.tsx:50-55 | playback continues only while the card is selected and not being edited |
| VolumePanel.VolumeCard.DropAsWritten | packages/niivue-react/src/components/Volume.tsx:106-116 | the highlight clears; a drop from another index (or of non-numeric text) throws because no reorder callback is given; the order never changes |
| VolumePanel.VolumeCard.Drop | packages/niivue-react/src/components/Volume.tsx:106-116 | the highlight clears; a drop of another card's index moves it to this position; anything else keeps the order; the cards stay a permutation |
| VolumePanel.DropOnOtherCard | packages/niivue-react/src/components/Volume.tsx:110-115 | a drop from another card takes the reorder branch and moves that card here |
| VolumePanel.Differs | packages/niivue-react/src/components/Volume.tsx:110-113 | a parsed index differs from the card's exactly when it is not that number, and NaN differs from every index |
| VolumePanel.Is4D | packages/niivue-react/src/components/Volume.tsx:130 | a viewer without volumes is not 4D |
| VolumePanel.Is4DFirstOnly | packages/niivue-react/src/components/Volume.tsx:130 | only the first volume decides whether the card counts as 4D |
| SrcVolume.Is4D | niivue/src/components/Volume.ts:42 | the Preact card counts a viewer as 4D exactly when the React card does |
| SrcVolume.SelectAfterClick | niivue/src/components/Volume.ts:22-30 | with a mode set the card's membership flips, other indices keep theirs; with none nothing changes |
| SrcVolume.AgreesWithReact | niivue/src/components/Volume.ts:22-30 | the same as the React card in MULTIPLE and with no mode; in SINGLE a second click deselects here but not there |
| SrcVolume.FrameRequest | niivue/src/components/Volume.ts:32-40 | with a volume, a frame request for the current frame plus the step on the first volume; without one, the handler throws |
| SrcVolume.SrcVolumeCard.constructor | niivue/src/components/Volume.ts:15-19 | the given instance and no errors |
| SrcVolume.SrcVolumeCard.Step | niivue/src/components/Volume.ts:32-40 | the request is recorded, or the error is, and nothing else changes |
| SrcVolume.NextThenPrev | niivue/src/components/Volume.ts:32-40 | next and previous ask the same volume for the frames on either side of the current one |
| Nav4D.ClampFrame | packages/niivue-react/src/components/Nav4D.tsx:86-93 | a frame within range is kept; above range the last frame, below it frame 0 |
| Nav4D.FrameSet | packages/niivue-react/src/components/Nav4D.tsx:76-147 | the request is recorded and only the first volume's frame changes, to the clamped request |
| Nav4D.Follows | packages/niivue-react/src/components/Nav4D.tsx:60-67 | a card that follows the sync is 4D and does not already show the target |
| Nav4D.SyncedAt | packages/niivue-react/src/components/Nav4D.tsx:57-71 | another synced card that can follow shows the target; any other card is untouched |
| Nav4D.Synced | packages/niivue-react/src/components/Nav4D.tsx:55-72 | the list after the loop: each card as the guard decides |
| Nav4D.SyncedFollows | packages/niivue-react/src/components/Nav4D.tsx:55-72 | synced 4D cards with enough frames show the target, the starting and unsynced cards are untouched, and syncing again changes nothing |
| Nav4D.Count4D | packages/niivue-react/src/components/Nav4D.tsx:166 | at most one per card |
| Nav4D.Count4DPositive | packages/niivue-react/src/components/Nav4D.tsx:166 | the count is positive exactly when some card is 4D |
| Nav4D.ShowSync | packages/niivue-react/src/components/Nav4D.tsx:166-167 | the sync button needs at least two cards |
| Nav4D.ShowSyncIff | packages/niivue-react/src/components/Nav4D.tsx:166-167 | the sync button shows exactly when two different cards are 4D |
| Nav4D.Nav4DCard.constructor | packages/niivue-react/src/components/Nav4D.tsx:15-19 | the given cards, frame and synced set; not playing, not editing, no interval, no errors |
| Nav4D.Nav4DCard.Step | packages/niivue-react/src/components/Nav4D.tsx:74-84 | without a volume the handler throws and nothing changes; otherwise the neighbouring frame is requested and the shown frame is where the viewer moved |
| Nav4D.Nav4DCard.SetVol4D | packages/niivue-react/src/components/Nav4D.tsx:86-93 | nothing without a frame count; otherwise the clamped frame is requested and shown |
| Nav4D.Nav4DCard.StartEditing | packages/niivue-react/src/components/Nav4D.tsx:95-99 | editing starts with the shown frame as text |
| Nav4D.Nav4DCard.Type | packages/niivue-react/src/components/Nav4D.tsx:101-104 | the typed text becomes the input, nothing else changes |
| Nav4D.Nav4DCard.KeyDown | packages/niivue-react/src/components/Nav4D.tsx:106-121 | Enter and Escape end editing and prevent the default; Enter commits the number `parseInt` reads from the input, Escape restores the text; other keys change nothing |
| Nav4D.Nav4DCard.Commit | packages/niivue-react/src/components/Nav4D.tsx:123-129 | editing ends; the number `parseInt` reads from the input is set clamped, text with no leading number is dropped |
| Nav4D.LeadingDigits | packages/niivue-react/src/components/Nav4D.tsx:110 | the longest prefix of decimal digits: all digits, and followed by none |
| Nav4D.ParseDecimal | packages/niivue-react/src/components/Nav4D.tsx:95-129 | `parseInt(String(n), 10)` is n again for every frame number, so the text the editor starts with commits the shown frame |
| Nav4D.ParseIntExamples | packages/niivue-react/src/components/Nav4D.tsx:110 | leading spaces and a sign are read and trailing text ignored; text with no leading digit gives NaN |
| Nav4D.Nav4DCard.TogglePlay | packages/niivue-react/src/components/Nav4D.tsx:152-154 | playing flips |
| Nav4D.Nav4DCard.PlayingEffect | packages/niivue-react/src/components/Nav4D.tsx:38-46 | an interval runs exactly while playing |
| Nav4D.Nav4DCard.Unmount | packages/niivue-react/src/components/Nav4D.tsx:29-36 | no interval runs afterwards |
| Nav4D.Nav4DCard.Tick | packages/niivue-react/src/components/Nav4D.tsx:133-149 | without a volume playback stops; without a frame count nothing happens; otherwise the next frame, wrapping to 0, is requested and shown |
| Nav4D.Nav4DCard.ToggleSync | packages/niivue-react/src/components/Nav4D.tsx:156-164 | the card joins or leaves the synced set; other cards keep their membership |
| Nav4D.Nav4DCard.SyncOthers | packages/niivue-react/src/components/Nav4D.tsx:49-72 | an unsynced card changes nothing; a synced one leaves the cards as the sync specifies |
| Nav4D.PlaybackCycles | packages/niivue-react/src/components/Nav4D.tsx:143-148 | playback goes to the next frame and from the last back to 0 |
| Nav4D.TwoCardSync | packages/niivue-react/src/components/Nav4D.tsx:49-84 | two synced 4D cards at frame 0 both show frame 1 after 'next' on the first; with only the first synced the second stays at 0 |
| Container.Spliced | packages/niivue-react/src/components/Container.tsx:76 | `splice(i, 1)`: the card at the normalised index is removed and the others kept in order; an index past the end removes nothing |
| Container.SplicedKeepsOthers | packages/niivue-react/src/components/Container.tsx:76 | the cards before and after keep their order, and only the removed card is lost |
| Container.Cards.constructor | packages/niivue-react/src/components/Container.tsx:14-21 | the given instances and location |
| Container.Cards.Remove | packages/niivue-react/src/components/Container.tsx:73-82 | the card leaves the list; emptying the list clears the location |
| Container.CardName | packages/niivue-react/src/components/Container.tsx:85-93 | the first volume's name, else the first mesh's, else empty |
| Container.Names | packages/niivue-react/src/components/Container.tsx:84-94 | one name per card, in order |
| Container.NamesAfterRemove | packages/niivue-react/src/components/Container.tsx:49-82 | removing a card removes exactly its name |
| Container.BroadcastTargets | packages/niivue-react/src/components/Container.tsx:134-136 | exactly the other loaded cards, in card order |
| Container.Loaded | packages/niivue-react/src/components/Container.tsx:135 | the loaded cards other than `i` from `from` on, in order |
| Container.BroadcastSymmetric | packages/niivue-react/src/components/Container.tsx:134-136 | no card broadcasts to itself, and between loaded cards the broadcast goes both ways |
| Container.AspectRatio | packages/niivue-react/src/components/Container.tsx:96-113 | 1 without metadata and for a non-planar view; otherwise the shown plane's width over its height |
| Container.CubeIsSquare | packages/niivue-react/src/components/Container.tsx:96-113 | a cube of voxels has aspect ratio 1 in every view |
| Container.Quotient | packages/niivue-react/src/components/Container.tsx:104-110 | a quotient exactly when the divisor is non-zero, and it times the divisor is the dividend |
| Container.CeilDiv | packages/niivue-react/src/components/Container.tsx:124 | the least number of rows-worth of columns that holds all cards |
| Container.CanvasWidth | packages/niivue-react/src/components/Container.tsx:115-130 | the largest fit over every row count, at least every row count's fit, and 0 only when none fits |
| Container.CanvasHeight | packages/niivue-react/src/components/Container.tsx:131 | the width over the aspect ratio, where that is finite |
| Container.OneCardFit | packages/niivue-react/src/components/Container.tsx:115-130 | a single card's width is the smaller of the width and the height-based limit, less the gap |
| OldContainer.OldCards.constructor | niivue/components/Container.ts:14-16 | the given instances, first viewer and location |
| OldContainer.OldCards.Remove | niivue/components/Container.ts:61-71 | the card leaves; an empty list also resets the first viewer and clears the location |
| OldContainer.AvailableSize | niivue/components/Container.ts:130-141 | the window less 10 across, less the header and footer heights (20 each before they render) down |
| OldContainer.RowFitGrowsWithHeight | niivue/components/Container.ts:117-124 | for a fixed row count, a taller window never gives a narrower canvas fit |
| OldContainer.BarsNarrowTheFit | niivue/components/Container.ts:30-41 | a header and footer that render at least 20 high never widen the canvas fit computed from the available area; at exactly 20 the area is what it was before they rendered |
| OverlayControls.Recolored | packages/niivue-react/src/components/ScalingBox.tsx:215-227 | "symmetric" gives warm over winter, any other name is shown alone with no negative colormap; the flag follows "symmetric" only in the Preact rule, and no other field changes |
| OverlayControls.VolumeColormap | packages/niivue-react/src/components/ScalingBox.tsx:215-227 | a missing layer leaves the instance alone; otherwise only the addressed layer is recoloured |
| OverlayControls.MeshColormapCalls | packages/niivue-react/src/components/ScalingBox.tsx:229-240 | three property calls on the addressed mesh layer, the first setting the negative flag to whether the choice is "symmetric" |
| OverlayControls.MeshColormap | packages/niivue-react/src/components/ScalingBox.tsx:229-240 | throws exactly when there is no mesh; otherwise only the three calls are recorded |
| OverlayControls.Colormap | packages/niivue-react/src/components/ScalingBox.tsx:206-213 | the volume rule for an instance with volumes, the mesh calls otherwise |
| OverlayControls.Scaling | packages/niivue-react/src/components/ScalingBox.tsx:181-193 | the addressed volume's range alone changes (nothing for a missing volume); without volumes two range calls go to the first mesh, and with no mesh it throws |
| OverlayControls.Opacity | niivue/src/components/OverlayOptions.ts:12-19 | a `setOpacity` request for the volume path (only for an existing layer in the dialogs), else one mesh-layer call; nothing else changes, and it throws only without volumes and meshes |
| OverlayControls.Invert | packages/niivue-react/src/components/ScalingBox.tsx:169-179 | the addressed volume layer's flag alone changes, or 1/0 is sent to the mesh layer; throws only without volumes and meshes |
| OverlayControls.SelectedOverlay | packages/niivue-react/src/components/ScalingBox.tsx:242-245 | the addressed volume, else the addressed layer of the first mesh; throws only without volumes and meshes |
| OverlayControls.LastOverlay | niivue/src/components/ScalingBox.ts:195-198 | always the last layer, whatever number is selected |
| OverlayControls.Colormaps | niivue/src/components/OverlayOptions.ts:1-6 | "symmetric" before the viewer's list for volumes, the fixed mesh list otherwise |
| OverlayControls.MeshColormapLists | packages/niivue-react/src/components/ScalingBox.tsx:36-43 | the React mesh list is the Preact one with "gray" added, and both offer "symmetric" |
| OverlayControls.ApplyProperty | packages/niivue-react/src/components/ScalingBox.tsx:229-240 | a recorded property call never changes a layer's identity, frames or data range, and a key the components never send leaves the layer alone |
| OverlayControls.MeshCallsRecolor | niivue/src/components/ScalingBox.ts:166-193 | replaying the three mesh calls on a layer recolours it exactly as the flag-setting volume rule does |
| OverlayControls.MeshCallsScale | niivue/src/components/ScalingBox.ts:132-144 | replaying the two range calls sets exactly the layer's range, as the volume path does |
| OverlayControls.FlagIsTheOnlyDifference | niivue/src/components/ScalingBox.ts:166-180 | the React and Preact colormap rules differ only in the negative flag, and a rule applied twice equals once |
| OverlayControls.OptionsShown | niivue/components/OverlayOptions.ts:4-10 | a volume overlay always shows the controls; with at most one volume and no layer on the first mesh nothing is shown |
| OverlayControls.LastLayerScaling | niivue/components/OverlayOptions.ts:4-52 | no control without an overlay; with more than one volume only the last one's range changes, else two range calls on the last mesh layer |
| OverlayControls.LastLayerColormap | niivue/components/OverlayOptions.ts:54-80 | no control without an overlay; the last volume recoloured with the flag, else the three calls on the last mesh layer |
| OverlayControls.SingleVolumeHasNoOptions | niivue/components/OverlayOptions.ts:4-10 | with a single volume the oldest component offers nothing, while the dialogs address that volume |
| OverlayControls.Reached | packages/niivue-react/src/components/ScalingBox.tsx:30-34 | every instance before the result is handled without throwing, and the one at it throws |
| OverlayControls.ScalingDialog.constructor | packages/niivue-react/src/components/ScalingBox.tsx:11-13 | the given selection and overlay number, with the dialog open |
| OverlayControls.ScalingDialog.ForEachSelected | packages/niivue-react/src/components/ScalingBox.tsx:30-34 | instances before the first that throws take the change, the rest are untouched, and the throw is reported |
| OverlayControls.ScalingDialog.SetScaling | packages/niivue-react/src/components/ScalingBox.tsx:30-34 | the range rule on every selected instance, in order, up to the first throw |
| OverlayControls.ScalingDialog.ChangeColormap | packages/niivue-react/src/components/ScalingBox.tsx:45-50 | the colormap rule on every selected instance, in order, up to the first throw |
| OverlayControls.ScalingDialog.ChangeOpacity | packages/niivue-react/src/components/ScalingBox.tsx:52-57 | the opacity request on every selected instance, in order, up to the first throw |
| OverlayControls.ScalingDialog.ChangeInverted | packages/niivue-react/src/components/ScalingBox.tsx:59-64 | the negation of the first instance's shown flag on every selected instance; a missing layer throws before any change |
| OverlayControls.ScalingDialog.KeyDown | packages/niivue-react/src/components/ScalingBox.tsx:20-28 | Escape closes an open dialog; nothing else changes |
| OverlayControls.InvertTwice | packages/niivue-react/src/components/ScalingBox.tsx:169-179 | inverting twice restores the layer's flag |

## Left out

- The viewer library (WebGL rendering, NVImage and NVMesh readers, the DICOM and MINC loaders): its success is a parameter (`readOk`, `fetchOk`, `isImage`). Only the calls `setMeshLayerProperty`, `setOpacity` and `setFrame4D` are recorded in order, as a `ViewerCall`. The rendering calls `drawScene` and `updateGLVolume` are not modelled. For `broadcastTo`, only the targets it is given are modelled (`Container.BroadcastTargets`).
- `setFrame4D` is taken to clamp the requested frame into the volume's frames; the library's own rule is not part of this model.
- The effect of `setMeshLayerProperty` on a mesh layer is given by `OverlayControls.ApplyProperty`, a stand-in for the library's handling; the calls themselves are recorded exactly.
- Host APIs: VS Code's `showOpenDialog`, `readFile`, `asWebviewUri` and workspace folders, `fetch`, file uploads, the iframe and DOM writes, and Streamlit's `components.html` and `setComponentValue`. Their results are parameters, and what is posted or written is recorded as an ordered sequence.
- `read_build_files` reads from disk: only the search order is modelled, with the outcome of each read as a parameter.
- Storage is a map from key to stored value; the JSON text is modelled by the list it encodes, so a save followed by a load returns the list exactly, and text that does not parse is its own case.
- Asynchrony: promise interleaving, `setInterval` playback timing, the `setTimeout` retry in `loadImageData` and the 100 ms MATLAB crosshair poll. Effects happen in the order the code issues them; the playback interval is a flag, and each of its ticks is an explicit call.
- Floating point: aspect ratios and canvas sizes are exact rationals. A division by zero, which gives a non-finite number in the source, gives `None`. `Math.PI` is the shortest decimal that denotes the double, and `toPrecision` or `toFixed` formatting is not modelled.
- `decodeURIComponent` and `URLSearchParams`: names from URL parameters are taken verbatim.
- `trim()` removes ASCII whitespace only; the other Unicode white-space characters are not modelled.
- Console output other than the MATLAB bridge's warnings.
- Focus and select effects, resize listeners and `offsetWidth`: the window and canvas sizes are parameters.
- Set iteration order in `syncOtherVolumes`: the synced set is walked in an order the proof does not fix. Every order gives the same frames, because each step reads only the source frame.
- `reorderImages` is imported by the React tests, but its definition is not part of this model. `VolumePanel.Move` states the move the tests expect.
- Of the `differenceInNames` test examples (packages/niivue-react/src/test/differenceInNames.test.ts:4-22), the ones at lines 10 and 11 are proved in full, and for line 6 the single pass is proved. The others, including the two folder examples, are not proved.
- Menu.tsx handlers outside the selection, preset, overlay-count and colour-scale rules: `saveSettings`, `applyInterpolation`, and the open-file and view handlers call into the viewer library or the host and are not modelled. `replaceLastVolume` (packages/niivue-react/src/components/Menu.tsx:148-156) removes the last volume of the last selected instance and asks the host for a replacement overlay; it is not modelled either.
- The buffering of requests until the page is ready, the rejection of stale clicks, per-key instance registries and initialisation timeouts have no counterpart in the code, so they are not modelled.
- The 4D navigator card is modelled only while its entry `nvArray[volumeIndex]` exists. A card still rendered after its entry was removed reads `undefined`, and that case is not part of this model.
- Common.Lower and Common.Upper: only ASCII letters change case, where `toLowerCase` and `toUpperCase` also map other Unicode letters. This shapes the case-blind endings in NiiVueCanvas.IsMinc, the key comparison in KeyboardShortcuts.Matches and the upper-cased element type in MetaImage. String lengths count characters (code points), where JavaScript counts UTF-16 units, so VolumePanel.DispName and CompareView.Label keep the same count of characters as the source only for names in the Basic Multilingual Plane.
- ReactUtility.BaseName: the `uri` fallback of packages/niivue-react/src/utility.ts:14-16 is not modelled. The instances it is given are `ExtendedNiivue` objects (packages/niivue-react/src/events.ts:320-327), which declare no `uri`, so that branch always falls through to the empty name.
- StreamlitPage.Parses: each pasted text is parsed as the body of its own string literal (section 7 of RFC 8259, escapes included). The whole element is not parsed as one JSON text. So a name such as `x", "k": "v`, which closes its literal early and still leaves valid JSON (and could even override `data_base64`), counts here as breaking the parse. A name that contains `</script>`, or text that a later `replace` call of the page rewrites, is not modelled either.
- StreamlitPage.InitializeShape: "no message exactly when the element does not parse" holds for the per-literal parse above. A name that closes its literal early and leaves valid JSON, which `JSON.parse` accepts, is not covered.
- JsonText.Unescape: a `\u` escape naming a lone surrogate gives U+FFFD, because Dafny characters are Unicode scalar values; `JSON.parse` keeps the lone code unit. JavaScript lengths count UTF-16 code units, so the model's 1000-character test differs from the page's only for text outside the basic plane, which `atob` rejects in both cases.
- MatlabBridge.Bridge.HandleMatlabMessage: a `TypeError` that escapes the message handler is only counted in `uncaught`. Its message and the browser's report of it are not modelled.
- OverlayControls.Opacity: the overlay dialogs pass `e.target.value`, a string, where the handler expects a number (packages/niivue-react/src/components/ScalingBox.tsx:52-57, niivue/src/components/ScalingBox.ts:38-43). The model takes the number the library would read from it.
- Presets.Load: text that parses to something other than a list (such as `null` or a number) is returned as is by the source. The model's storage holds either a parsed list or text that does not parse, so that case is not represented.
- Container.BroadcastTargets: the source compares viewer objects by identity. The model compares card positions, which agree as long as no viewer appears twice in the card list.
- MatlabBridge.LoadVolume: an undecodable payload is reported as "Failed to load volume: InvalidCharacterError" (and likewise for MatlabBridge.LoadMesh). The source prints `${error}` of the DOMException, which adds a browser-specific message after the name; that message is not modelled.
- NiiVueCanvas.SharedRoute: a list of names sent with no list data makes the source throw a `TypeError` when it reads `item.data[i]` (packages/niivue-react/src/components/NiiVueCanvas.tsx:170, niivue/src/components/NiiVueCanvas.tsx:102). The model pairs each name with no data instead. Every list body the hosts and pages of this model send carries its list of files.
- MeshLayers.RecordedMeshOverlayNeverPushes: that the library's reader leaves the mesh's layers alone when its result is dropped is taken from the library's behaviour, which is not part of this model.

## Findings

| source | as written | input that shows it | evidently intended | confidence | as-written member | corrected member |
|---|---|---|---|---|---|---|
| packages/niivue-react/src/components/NiiVueCanvas.tsx:135-139 | `loadVolume` lower-cases `item.uri` for the MINC test before anything checks for a list, so a list of names throws | a body whose `uri` is a list of DICOM file names, as a folder pick sends | a list reaches the DICOM branch below, as in the older component | medium, not executed | NiiVueCanvas.ListRoutes | NiiVueCanvas.CorrectedListMatchesSrc |
| media/main.js:122-125 | at a one-character suffix, `slice(-1, 0)` is empty, so the back-off over digits stops and a shared final digit is cut away | the names "a1" and "b1" are shown as "a" and "b" | a shared run of trailing digits stays in every name, as the comment above the loop says | high, not executed | CompareView.AsWrittenDropsTrailingDigit | CompareView.CorrectedKeepsTrailingDigit |
| packages/niivue-react/src/components/Volume.tsx:106-116 | the container passes the card no `reorder` callback, so a drop from another card calls `undefined` and throws | dragging card 0 onto card 1 | the dragged card moves to the drop position | medium, not executed | VolumePanel.VolumeCard.DropAsWritten | VolumePanel.VolumeCard.Drop |
| packages/niivue-matlab/src/matlab.tsx:70-76 | `setOpacity` and `setColormap` only check that the index is below the volume count, so a negative index passes and the write to `volumes[-1]` throws | `setOpacity` with index -1 and one volume | only an index that names a volume passes | high, not executed | MatlabBridge.NegativeIndexPassesGuard | MatlabBridge.CorrectedGuardNamesVolume |
| apps/streamlit/niivue_component/frontend/src/hooks/useStreamlitNiivue.ts:95-104 | the overlay message carries the requested colormap and opacity, but the `overlay` handler ignores both and uses the settings' colormap and 0.5 | an overlay in "hot" at opacity 0.8 is shown in red at 0.5 | the overlay is shown in its requested colormap and opacity | medium, not executed | StreamlitFrontend.OverlayStyleDropped | StreamlitFrontend.CorrectedOverlayKeepsStyle |
