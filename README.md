# Node proxies, text-renderer status and the radius effect

A Dafny model of four pieces of the renderer's core, with their properties proved.

- **`MainOnlyNode`** is the node proxy used when the renderer runs on the main thread. It covers:
  - the process-wide id counter (`getNewId`) and the constructor's choice of id;
  - the local parent/children tree the `parent` setter keeps;
  - the `src`, `texture` and `shader` setters, which forward to the core node;
  - `destroy`.

  The core node is not an object in the model. Each call the proxy makes on it is appended, in order, to the node's `effects` log. So is each event the proxy emits and its final `removeAllListeners`.
- **`ThreadXMainNode`** is the proxy used when rendering runs in a worker. It keeps the same tree and setter rules. Instead of calling a core node, it emits command messages (`loadTexture`, `createAnimation`, `destroyAnimation`, ...), recorded in its `messages` log. It also hands out per-node animation ids 1, 2, 3, ....
  - The `FinalizationRegistry` is modelled as a map from each live registration's held id to its controller.
  - The garbage-collection callback is the explicit operation `Finalize`, which releases at most once.
  - The bookkeeping invariant `Valid()` says:
    - the `createAnimation` ids are exactly 1..n in order;
    - an id gets one `destroyAnimation` once its registration is gone, and none before.
- **`TextRenderer`** covers:
  - the status machine `setStatus`, which ignores a repeated status and otherwise stores the status and emits it;
  - the table of default property setters, each of which writes one field of the text props;
  - the constructor's merge of a renderer's own setters over those defaults.
- **`RadiusEffect`** covers:
  - the validator that turns a `radius` (a number or an array) into one value per corner;
  - `resolveDefaults`, whose default radius is 10;
  - `getEffectKey`.

The `parent` setter is proved to keep a consistent tree consistent. A tree is consistent when:
- every node is in exactly its parent's `children` list;
- no list holds a node twice;
- the set of nodes is closed under parent and children.

On such a tree the setter's fatal assertion (node not found in the old parent's children) cannot fire. The model does not assume this: the assertion is the `Fatal` outcome. As in the source, it comes after the new parent and the core-node parent have already been written.

## Model

| member | source | states |
|---|---|---|
| `MainOnly.IdCounter.constructor` | src/render-drivers/main/MainOnlyNode.ts:43 | The counter starts at 1, so the first id handed out is 1 |
| `MainOnly.IdCounter.GetNewId` | src/render-drivers/main/MainOnlyNode.ts:43-47 | Returns the counter's current value and leaves the counter one higher, so successive ids are consecutive from 1 |
| `MainOnly.MainOnlyNode.constructor` | src/render-drivers/main/MainOnlyNode.ts:60-111 | The id is the given core node's id (counter untouched), or else the next counter value. Parent, shader, texture and src are then assigned through their setters in that order. The exact core calls this produces are stated, including the two `unloadTexture` calls when texture and src are both left out (`undefined`). A non-empty src leaves a fresh `ImageTexture` descriptor |
| `MainOnly.MainOnlyNode.AssignProps` | src/render-drivers/main/MainOnlyNode.ts:108-110 | Shader, texture and src are assigned in that order. The core calls that follow from the initial `null`/`null`/`''` are stated, including `unloadTexture` for a texture left out (`undefined !== null`), and again for a left-out src |
| `MainOnly.MainOnlyNode.SetParent` | src/render-drivers/main/MainOnlyNode.ts:301-316 | Records the new parent and forwards it to the core node. It is fatal exactly when there is an old parent that does not list the node, and then no children list changes. Otherwise the node is removed from the old parent's children at the index `indexOf` finds, and is appended to the new parent's. On a consistent tree it never fails and the tree stays consistent |
| `MainOnly.ReparentKeepsConsistent` | src/render-drivers/main/MainOnlyNode.ts:305-315 | Removing the node from its old parent's list and appending it to the new parent's keeps every list free of duplicates. Each node stays listed exactly by its parent |
| `MainOnly.ChildHasOneParent` | src/render-drivers/main/MainOnlyNode.ts:305-311 | In a consistent tree a node appears in only one children list, its parent's, and exactly once there, so `splice(indexOf(...), 1)` removes it completely |
| `MainOnly.ReattachMovesToEnd` | src/render-drivers/main/MainOnlyNode.ts:305-315 | Assigning the current parent again keeps the list's length and elements and moves the node to the end |
| `MainOnly.MainOnlyNode.SetSrc` | src/render-drivers/main/MainOnlyNode.ts:342-354 | The same URL does nothing. An empty or `undefined` URL sets the texture to `null`, unloading unless it already was `null`. Any other URL installs a new `ImageTexture` descriptor with props `{src}` and loads it |
| `MainOnly.MainOnlyNode.SetTexture` | src/render-drivers/main/MainOnlyNode.ts:361-371 | A strictly equal value does nothing. Otherwise the value is stored and the core node loads the descriptor (type, props, options) or, for `null`/`undefined`, unloads |
| `MainOnly.MainOnlyNode.SetShader` | src/render-drivers/main/MainOnlyNode.ts:386-394 | A strictly equal value does nothing. Otherwise the value is stored and a descriptor is loaded; clearing it calls nothing |
| `MainOnly.MainOnlyNode.OnTextureLoaded` | src/render-drivers/main/MainOnlyNode.ts:373-375 | Re-emits `txLoaded` with the dimensions |
| `MainOnly.MainOnlyNode.OnTextureFailed` | src/render-drivers/main/MainOnlyNode.ts:377-379 | Re-emits `txFailed` with the error |
| `MainOnly.MainOnlyNode.Destroy` | src/render-drivers/main/MainOnlyNode.ts:396-401 | Emits `beforeDestroy`, detaches, emits `afterDestroy` and drops the listeners, in that order; a fatal detach stops after the detach. On a consistent tree it succeeds and the node ends up in no children list |
| `JsArray.IndexOf` | src/render-drivers/main/MainOnlyNode.ts:306 | The result is -1 exactly when the element is absent; otherwise it is the first index holding it |
| `JsArray.RemoveAt` | src/render-drivers/main/MainOnlyNode.ts:311 | `splice(i, 1)`: one element shorter, elements before `i` kept in place, those after shifted down by one |
| `JsArray.RemoveAtMultiset` | src/render-drivers/main/MainOnlyNode.ts:311 | `splice(i, 1)` removes exactly one copy of the element at `i` and keeps every other element |
| `JsArray.Without` | src/render-drivers/threadx/ThreadXMainNode.ts:131-136 | Splicing out the element `indexOf` finds leaves a list one shorter |
| `JsArray.WithoutRemovesFirst` | src/render-drivers/main/MainOnlyNode.ts:306-311 | Splicing out the element `indexOf` finds removes exactly one copy of it. Elements before its first occurrence stay in place, and those after shift down by one |
| `Descriptors.ImageTextureProps` | src/render-drivers/main/MainOnlyNode.ts:351-353 | The props passed to `makeTexture` hold exactly the key `src`, mapped to the URL |
| `Descriptors.MakeImageTexture` | src/render-drivers/threadx/ThreadXMainNode.ts:116-118 | A new `ImageTexture` descriptor with props `{src}` and no options on every call |
| `ThreadX.ThreadXMainNode.constructor` | src/render-drivers/threadx/ThreadXMainNode.ts:34-39 | A new node is valid, has animation id 1 next, no parent, children, texture or shader, src `''`, and nothing sent or registered |
| `ThreadX.ThreadXMainNode.SetTexture` | src/render-drivers/threadx/ThreadXMainNode.ts:66-76 | A reference-equal value sends nothing. Otherwise the value is stored and `loadTexture` with it, or `unloadTexture` for `null`, is sent |
| `ThreadX.ThreadXMainNode.SetShader` | src/render-drivers/threadx/ThreadXMainNode.ts:82-90 | A reference-equal value sends nothing. Otherwise the value is stored and `loadShader` is sent for a descriptor |
| `ThreadX.ThreadXMainNode.Animate` | src/render-drivers/threadx/ThreadXMainNode.ts:92-101 | Takes the next animation id, sends `createAnimation` with it and the props and settings, and returns a new controller bound to this node and id, registered under that id. It keeps the ids sent equal to 1..n in order |
| `ThreadX.ThreadXMainNode.Finalize` | src/render-drivers/threadx/ThreadXMainNode.ts:50-52 | The release callback sends `destroyAnimation` with the controller's id once and drops the registration. A second release, or one for an unregistered controller, changes nothing |
| `ThreadX.DestroyAtMostOnce` | src/render-drivers/threadx/ThreadXMainNode.ts:41-52 | On a valid node no id ever gets more than one `destroyAnimation`, and an id not yet handed out gets none |
| `ThreadX.ThreadXMainNode.SetSrc` | src/render-drivers/threadx/ThreadXMainNode.ts:107-119 | The same URL does nothing. The empty URL sets the texture to `null`, sending `unloadTexture` unless it already was. Any other URL installs a new `ImageTexture` descriptor and sends `loadTexture` with it |
| `ThreadX.ThreadXMainNode.SetParent` | src/render-drivers/threadx/ThreadXMainNode.ts:126-141 | As `MainOnlyNode.SetParent`, except that it writes the new parent's id, or 0, into `parentId` and sends nothing. On a consistent tree it never fails and keeps the tree consistent |
| `ThreadX.ReparentKeepsConsistent` | src/render-drivers/threadx/ThreadXMainNode.ts:130-140 | The list surgery of the worker proxy's parent setter keeps the tree consistent |
| `TextRendering.StatusEvents` | src/core/text-rendering/renderers/TextRenderer.ts:324-331 | At most one event. None exactly when the status is unchanged; otherwise one named by the new status and carrying the error |
| `TextRendering.TextRenderer.SetStatus` | src/core/text-rendering/renderers/TextRenderer.ts:324-331 | The state's status becomes the given one, and the emitter receives exactly `StatusEvents(old status, status, error)` |
| `TextRendering.SetStatusTwiceEmitsOnce` | src/core/text-rendering/renderers/TextRenderer.ts:325-328 | Two calls in a row with the same status emit at most one event |
| `TextRendering.Get` | src/core/text-rendering/renderers/TextRenderer.ts:152-243 | The value read for a key has that key's `TrProps` type |
| `TextRendering.SetProp` | src/core/text-rendering/renderers/TextRenderer.ts:249-310 | Writing a key makes reading it give the value written; every other key reads as before |
| `TextRendering.PropsExtensional` | src/core/text-rendering/renderers/TextRenderer.ts:152-243 | Two text-prop records that agree on every key are equal |
| `TextRendering.SetPropCommutes` | src/core/text-rendering/renderers/TextRenderer.ts:249-310 | Default setters for different keys can run in either order |
| `TextRendering.SetPropOverwrites` | src/core/text-rendering/renderers/TextRenderer.ts:249-310 | Setting the same key twice keeps only the second value |
| `TextRendering.SetPropCurrentValue` | src/core/text-rendering/renderers/TextRenderer.ts:249-310 | Setting a key to its current value changes nothing |
| `TextRendering.DefaultSetters` | src/core/text-rendering/renderers/TextRenderer.ts:249-310 | The defaults table has an entry for every key of `TrProps`, and each entry writes its own key |
| `TextRendering.RunDefaultSetter` | src/core/text-rendering/renderers/TextRenderer.ts:249-310 | The setter is looked up in the defaults table and run on the state. It writes that one field of `state.props` and leaves the status untouched |
| `TextRendering.MergeSetters` | src/core/text-rendering/renderers/TextRenderer.ts:318-321 | Every key has a setter. A key the renderer supplies takes the renderer's setter, and every other key keeps the default |
| `TextRendering.TextRenderer.constructor` | src/core/text-rendering/renderers/TextRenderer.ts:317-322 | The frozen `set` table is the merge of the defaults with the renderer's setters |
| `Radius.Normalize` | src/core/renderers/webgl/shaders/effects/RadiusEffect.ts:42-56 | Always four corners. A number fills all four. A list of 1-4 values is repeated from its start (`[a,b]` becomes `[a,b,a,b]`, `[a,b,c]` becomes `[a,b,c,a]`, four values are kept). A longer list gives four copies of its first value, and an empty list four `undefined`. All corners are defined exactly when there is at least one input value |
| `Radius.NormalizeTakesInputValues` | src/core/renderers/webgl/shaders/effects/RadiusEffect.ts:42-56 | Every defined corner is one of the input's values |
| `Radius.NormalizeIdempotent` | src/core/renderers/webgl/shaders/effects/RadiusEffect.ts:44-51 | Normalising the four corners again returns them unchanged |
| `Radius.ResolveDefaults` | src/core/renderers/webgl/shaders/effects/RadiusEffect.ts:75-81 | A given radius is kept, and a missing one becomes 10 |
| `Radius.DefaultRadiusCorners` | src/core/renderers/webgl/shaders/effects/RadiusEffect.ts:79 | With no radius given, every corner is 10 |
| `Radius.EffectKey` | src/core/renderers/webgl/shaders/effects/RadiusEffect.ts:31-35 | The effect key is the effect's own name, `radius` |

## Left out

- The property pass-throughs of `MainOnlyNode` (x, y, width, height, alpha, colours, zIndex, scale, mount, pivot, rotation, ...) and the core-node construction props. They forward values to the core node unchanged and have no logic of their own.
- `MainOnlyNode.animate` and `flush`. `animate` only wraps a `CoreAnimation`, which is not part of this model, and `flush` does nothing.
- The core node itself, the event emitter, the shared-memory `NodeStruct`, and the transport that carries `ThreadXMainNode`'s messages to the worker. They appear only as the `effects` and `messages` logs.
- When a `FinalizationRegistry` callback runs. Garbage collection is nondeterministic, so the model makes the callback an explicit `Finalize` call.
- MainOnly.MainOnlyNode.constructor: a left-out `parent` arrives as `undefined` and is modelled as `null`. Every check in the setter treats the two alike; only the `parent` getter would return `undefined`.
- `ThreadXMainNode`'s texture, shader and src setters take `null` and strings only. Nothing in its own code passes them `undefined`.
- The listener subscriptions on the core node (`coreNode.on('txLoaded', ...)`). The handlers are modelled as `OnTextureLoaded`/`OnTextureFailed` and are assumed to be wired.
- `assertTruthy` (src/utils.ts) is not part of this model. It is taken to throw when its condition is false, which is the `Fatal` outcome.
- The abstract `TextRenderer` members (`getPropertySetters` bodies, `canRenderFont`, `isFontFaceSupported`, `addFontFace`, `createState`, `updateState`, `renderQuads`). They belong to concrete renderers. A renderer's own setter is an opaque `RendererSetter` entry in the table, so running one is not modelled.
- The `TextRendererState` fields other than props, status and emitter (`forceFullLayoutCalc`, `textW`, `textH`, `debugData`). The shared code does not touch them.
- The string-literal unions of `TrProps` (`textAlign`, `contain`, the font keywords) are held as plain strings. Numbers are reals, and the 32-bit packing of `color` is not modelled.
- `state.props` is a record value written through the state, so aliasing of one props object between two states is not modelled.
- The GLSL sources of `RadiusEffect` (`methods`, `onShaderMask`, `onEffectMask`) and the uniform's upload method and type. They are shader text, not host logic.
