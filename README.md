# VideoJS player lifecycle adapter, in Dafny

This project models the player lifecycle adapter of the `VideoJS` React component
(`src/components/VideoJs.tsx`). The component embeds a video.js player in a
declarative component tree. It has three parts:

- **Fingerprint.** `optionsKey` reduces the `options` prop to the five fields that
  matter after creation: `sources`, `autoplay`, `muted`, `poster` and `preload`. Each
  field is passed through `?? null`. Module `Fingerprint`: a `Key` of five
  null-or-value slots, `OptionsKey` and `Decode`.
- **Mount controller.** The mount effect loads the player library asynchronously.
  It then builds a `<video>` element, appends it to the container and calls the
  library's constructor once. Its cleanup disposes the player and empties the
  container. Class `VideoJsComponent.VideoJs` holds the refs (`playerRef`,
  `containerRef`) and the runs of the mount effect. Each run has its own
  closure-local `mounted` flag. The steps are `Mount`, `ResumeSetup` (the
  continuation after the two awaits) and `Teardown`. The host interleaves them
  freely.
- **Reconciler.** When `[optionsKey, debug]` changes, the reconcile effect makes a
  fixed sequence of calls on the held player: `pause`, `src`, `poster`, `autoplay`,
  `play`, `muted`, and `preload` on the inner `<video>`. Module `Reconciler`
  defines these calls as the pure function `Ops`. `Attempted` cuts that sequence
  at the first call that throws. `Run` is an abstract view of what the calls are taken to do to
  the player's settings.

Every call into the player library goes into a trace (module `Lifecycle`). The
class invariant `Valid` ties the trace to the held player. The trace protocol
lemmas show three things:
- at most one player is live at a time;
- each player is created once and disposed at most once;
- no call reaches a player before its creation or after its disposal.

Three behaviours of the code shape the model:

- **Autoplay and muted are always written.** A decoded absent field is `null`,
  never `undefined`, so `autoplay(false)` and `muted(false)` are issued even
  when the fields were never supplied (`AutoplayStep`, `MutedStep`,
  `AbsentFlagsStillWritten`).
- **One `try` for the whole reconciliation.** The first call that throws skips
  every later call (`Attempted`).
- **`dispose` is not guarded.** The cleanup calls it outside any `try` (see
  "Left out").

One consequence of the effects' dependencies is a lost update. The mount
effect captures the first render's options. A render with new options before
the imports settle runs the reconcile effect, which finds no player and still
records the new key as its last dependencies. Setup then creates the player
with the first options. Creating it causes no re-render, and the key no longer
changes, so the new options are never applied
(`OptionsChangedBeforeSetupResumes`).

## Model

| member | source | states |
|---|---|---|
| `Js.Get` | src/components/VideoJs.tsx:19-23 | `options?.field` is `undefined` when the options are missing or lack the field |
| `Js.ToJsString` | src/components/VideoJs.tsx:55 | `String(v)` returns a string unchanged |
| `Js.ToJsStringEmpty` | src/components/VideoJs.tsx:55 | `String(v)` is empty exactly for `""` and `[]`; so a truthy `[]` poster is written as the empty string |
| `Fingerprint.ToSlot` | src/components/VideoJs.tsx:19-23 | a field becomes a null slot exactly when it is `undefined` or `null` (`?? null`) |
| `Fingerprint.Decode` | src/components/VideoJs.tsx:87 | a parsed key field is never `undefined`, and re-encoding it gives back the same slot |
| `Fingerprint.OptionsKey` | src/components/VideoJs.tsx:17-25 | decoding the slot of any tracked field gives that field `?? null` |
| `Fingerprint.SlotRoundTrip` | src/components/VideoJs.tsx:17-25 | encode-then-decode is `?? null`; it is the identity on every value except `undefined` |
| `Fingerprint.KeyEqualIff` | src/components/VideoJs.tsx:17-25 | two options have equal keys if and only if all five tracked fields agree after `?? null` |
| `Fingerprint.KeyIgnoresUntrackedFields` | src/components/VideoJs.tsx:17-25 | options that differ only outside the five tracked fields have the same key |
| `Fingerprint.AbsentUndefinedNullAgree` | src/components/VideoJs.tsx:19-23 | an absent field, an `undefined` field and a `null` field give the same key |
| `Fingerprint.PresentDiffersFromAbsent` | src/components/VideoJs.tsx:19-23 | a present non-nullish field (`false`, `0` and `""` included) gives a different key from an absent one |
| `Fingerprint.MissingOptionsKey` | src/components/VideoJs.tsx:19-23 | null or undefined `options` key like `{}`: all five slots null |
| `Reconciler.Ops` | src/components/VideoJs.tsx:87-115 | a reconciliation without throws makes between 3 and 7 calls; `autoplay(Boolean(a))` and `muted(Boolean(m))` are always among them |
| `Reconciler.Attempted` | src/components/VideoJs.tsx:89-118 | the calls made are a prefix of the planned ones: up to and including the throwing call, or all of them |
| `Reconciler.OpsInSourceOrder` | src/components/VideoJs.tsx:89-115 | each call occurs at most once, always in the order pause, src, poster, autoplay, play, muted, preload |
| `Reconciler.SourcesStep` | src/components/VideoJs.tsx:90-96 | a non-empty source array gives `pause` then `src(sources)`; any other value gives `src([])` and no `pause` |
| `Reconciler.PosterStep` | src/components/VideoJs.tsx:98 | `poster(String(p))` is called if and only if the poster is truthy, and never with another value |
| `Reconciler.AutoplayStep` | src/components/VideoJs.tsx:99-109 | `autoplay(Boolean(a))` is always called; `play` is called if and only if autoplay is truthy and `play` is a function |
| `Reconciler.MutedStep` | src/components/VideoJs.tsx:110 | `muted(Boolean(m))` is always called, never with the opposite flag |
| `Reconciler.PreloadStep` | src/components/VideoJs.tsx:112-115 | the inner video's preload is set to `String(preload)` if and only if preload is truthy and `el()` and its `<video>` exist, and never to another value |
| `Reconciler.AbsentFlagsStillWritten` | src/components/VideoJs.tsx:99-110 | options without autoplay or muted still produce `autoplay(false)` and `muted(false)`, and no `play` |
| `Reconciler.ReconciledSettings` | src/components/VideoJs.tsx:89-115 | after a reconciliation without a throw: sources are the new array or `[]`; poster and preload change only when one is given; autoplay and muted are overwritten |
| `Reconciler.SourcesCleared` | src/components/VideoJs.tsx:94-96 | for an empty or non-array source value the code calls `src([])`, and the modelled settings end with no sources, not stale ones |
| `Reconciler.PosterSticky` | src/components/VideoJs.tsx:98 | without a truthy poster, the player keeps its previous poster |
| `Reconciler.ReconcileIdempotent` | src/components/VideoJs.tsx:83-119 | for reconciliations without a throw, reconciling twice with the same key leaves the same settings as reconciling once |
| `Dom.BuildVideoElement` | src/components/VideoJs.tsx:51-55 | the element has class `video-js vjs-big-play-centered` and `playsinline`; preload is `options.preload` or `"none"`; a poster only when truthy; nothing for missing options |
| `Lifecycle.InvocationsKeepProtocol` | src/components/VideoJs.tsx:84-118 | reconcile calls on the live player keep the protocol and change no player's status |
| `Lifecycle.AtMostOneLive` | src/components/VideoJs.tsx:47-62 | in any trace that follows the protocol, at most one player is live |
| `Lifecycle.CreatedOnceDisposedOnce` | src/components/VideoJs.tsx:71-79 | each player is created at most once; it is disposed exactly once if it was created and is no longer live, otherwise never |
| `Lifecycle.NoUseAfterDispose` | src/components/VideoJs.tsx:73-77 | after `dispose(p)`, `p` is never disposed again and receives no further call |
| `Lifecycle.OnlyCreatedPlayersAreUsed` | src/components/VideoJs.tsx:84-85 | dispose and reconcile calls reach only a player created earlier in the trace |
| `VideoJsComponent.VideoJs.constructor` | src/components/VideoJs.tsx:14-15 | a new component has null refs, no effect run and no library call |
| `VideoJsComponent.VideoJs.AttachContainer` | src/components/VideoJs.tsx:139 | the container ref points at a new, empty `<div>` |
| `VideoJsComponent.VideoJs.DetachContainer` | src/components/VideoJs.tsx:139 | the container ref becomes null |
| `VideoJsComponent.VideoJs.Mount` | src/components/VideoJs.tsx:27-35 | a mount-effect run starts with its own `mounted = true` and captures the options |
| `VideoJsComponent.VideoJs.ResumeSetup` | src/components/VideoJs.tsx:37-62 | after teardown, with no container, with a held player, after a failed import or with missing options: no element and no constructor call. Otherwise: one element appended, one constructor call, and the returned player held |
| `VideoJsComponent.VideoJs.Teardown` | src/components/VideoJs.tsx:71-79 | `mounted` becomes false; a held player is disposed exactly once and the ref cleared; no dispose when none is held; an attached container ends empty |
| `VideoJsComponent.VideoJs.Reconcile` | src/components/VideoJs.tsx:83-119 | the effect runs only when `[optionsKey, debug]` changed; it makes the attempted calls on the held player, and none when no player is held |
| `VideoJsComponent.UnmountBeforeSetupResumes` | src/components/VideoJs.tsx:47 | unmounting before the imports settle: no library call, and the container stays empty |
| `VideoJsComponent.RemountBeforeSetupResumes` | src/components/VideoJs.tsx:29-72 | after mount, cleanup and mount again, the stale setup does nothing: exactly one constructor call, with the options, and the container holds exactly its element |
| `VideoJsComponent.OptionsChangedBeforeSetupResumes` | src/components/VideoJs.tsx:27-119 | a render with new options before setup resumes: the one constructor call has the first options, and a later render with the new options does not re-run the reconcile effect, so they are never applied |
| `VideoJsComponent.ReconcileBeforeSetupResumes` | src/components/VideoJs.tsx:83-119 | a reconcile before setup resumes makes no call, and a later render with the same options does not re-run it once the player exists: the constructor call is the only call |

## Left out

- Server-side rendering's early return (line 33), the `debug` console logging and the JSX styling (lines 121-141) are not modelled. `debug` matters here only as a reconcile dependency.
- The dynamic imports (lines 37-45) become the `imported` parameter of `ResumeSetup`. A failed CSS import is ignored by the code, so it has no parameter.
- The ready callback and `onReady` (lines 59-62) are not modelled. When they fire depends on the library, and they are not guarded by `mounted`.
- `VideoJsComponent.VideoJs.Teardown` assumes that `dispose` returns normally. If it throws, the code skips clearing the ref and the container and the exception leaves the cleanup. The model does not capture that path.
- `Reconciler.Ops`: the `el()` and `querySelector("video")` lookups are not recorded as calls. They are the `hasEl` and `hasVideoTag` capabilities of `PlayerCaps`.
- `Reconciler.Ops`: a rejected `play()` promise is swallowed and changes no trace, so it is not modelled. A `play()` that throws synchronously is a throw at its index in `Attempted`.
- `Reconciler.ReconciledSettings` covers settings only. Playback state is not part of `Settings`: `pause` and `play` leave it unchanged.
- `Fingerprint.OptionsKey` works on the values, not on the JSON text. Key equality stands for equality of the JSON strings. The two can differ for objects whose properties are listed in another order, and for values outside the model's `Value` type: fractional numbers, because `Num` holds an integer; dates, which `JSON.stringify` turns into strings; and functions, `undefined` array entries and `NaN`, which it turns into `null` or omits. Arrays hold only source descriptors. `Obj` stands for plain objects with the default `toString`; an object with its own `toString`, such as a `URL` given as the poster, prints differently at line 55.
- `Js.ToJsString` prints integers only; JavaScript's exponent notation for very large numbers is not modelled.
- `useMemo` (lines 17-25) recomputes the key only when the `options` object changes identity. The model recomputes it on every render. So if a parent mutates the same `options` object in place and re-renders, the code keeps the old key and does not reconcile, while the model computes the new key and reconciles.
- React's own scheduling is not modelled; `Mount`, `ResumeSetup`, `Teardown`, `Reconcile` and the container steps may come in any order. Each `ResumeSetup` of a run stands for that run's single continuation.
- `Reconciler.SourcesCleared`, `Reconciler.ReconciledSettings` and `Reconciler.ReconcileIdempotent` are about the modelled settings. `Apply` takes each call to set exactly the one setting it names, `src([])` included. What the player library itself does with these calls (for example how it treats an empty source list) is not modelled.
- `container` records only the elements the component appends and removes. The library's own changes to the DOM are not followed; for example, its constructor moves the `<video>` into a wrapper element.
