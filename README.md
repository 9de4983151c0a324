# DepthFlow render broker, animation steps and effect state, in Dafny

DepthFlow turns an image into a parallax video. This project models three parts of it.

- **The render broker** (`DepthFlow/Server.py`). An HTTP request carries a `DepthPayload`. The broker fingerprints the request's configuration and keeps a time-to-live cache, `render_data`, from fingerprint to one of three values: a pending `None` marker, the finished video bytes, or the exception a render raised. It also keeps a priority queue of jobs, `render_jobs`.
  - Each iteration of the request's polling loop does one of four things: serves a truthy cached video, reports and clears a cached failure, admits the job once, or waits and eventually times out.
  - Each worker iteration takes the highest-priority job, renders it and is meant to store the outcome under the job's fingerprint. As written it skips that write when the job fails in scene set-up (see Findings): `Work` and `Broker.WorkerStep` model the intended iteration, `WorkAsWritten` the one in the code.
- **The animation layer** (`depthflow/animation.py`). A `DepthAnimation` is an ordered list of steps applied to the scene every frame.
  - A component computes a value from the scene's time. It either overwrites its target field of the scene state or adds to it.
  - The `Set` and `Add` constants force the `cumulative` flag.
  - Reversible components run time backwards.
  - Special steps replace the state or reset it, and filters switch on a post-processing effect.
  - `ClassEnum.members` lists the public entries of a class namespace.
- **The effect state** (`depthflow/state.py`). A `DepthState` has camera fields, three x/y pair properties and five effect sub-states. Its `pipeline` turns it into the ordered list of 34 shader uniforms.

## Modules

- `wrappers.dfy`, module `Wrappers`: `Option` and `Result`. `Result` carries a success value or the message of a raised exception.
- `server.dfy`, module `Server`: payloads and their fingerprint, the priority order, the TTL store, the pure transition functions `Poll` and `Work` on a `State(store, queue)`, and a lemma per multi-step property. The class `Broker` holds `store` and `queue` as fields, and its methods are proved to perform exactly `Poll` and `Work` on them.
  - The renderer is an `Outcome` parameter.
  - The fingerprint function is a parameter `fp`.
  - The clock `now` and the loop's start time are inputs.
- `state.dfy`, module `EffectState`: the sub-state and state datatypes with their defaults, each `pipeline` as a function producing a sequence of uniforms, a decoder per pipeline, and the round-trip, injectivity and layout lemmas.
- `animation.dfy`, module `Animation`:
  - The scene state is a `map<Target, real>`, with booleans read as 1 or 0.
  - `Compute` and `ApplyComponent` model the components, `ApplyStep` models one step of any kind, and `RunSteps` is the specification of the step loop.
  - The method `ApplySteps` runs that loop and is proved against `RunSteps`.
  - The classes `Scene` and `DepthAnimation` hold the fields that `add`, `clear` and `apply` change.
  - `sin`, `cos` and `pow` are the abstract functions of a `Numerics` parameter.

## Model

| member | source | states |
|---|---|---|
| Server.FingerprintIgnoresBookkeeping | DepthFlow/Server.py:72-81 | Payloads with the same configuration get the same fingerprint, whatever their `expire`, `hash` and `priority`; this holds by construction, since the fingerprint parameter reads the configuration only, which is the assumption about `exclude=True` recorded under Left out. The bookkeeping defaults are 3600, 0 and 0. Fingerprinting twice changes nothing and keeps the priority and lifetime. |
| Server.NewPayload | DepthFlow/Server.py:79-81 | Definition of a payload with the bookkeeping fields at their `Field` defaults: `expire` 3600, `hash` 0, `priority` 0. Properties in FingerprintIgnoresBookkeeping. |
| Server.Fingerprint | DepthFlow/Server.py:245 | Definition of `hash(config)` as the fingerprint parameter applied to the configuration alone. Properties in FingerprintIgnoresBookkeeping and StepsKeepFingerprints. |
| Server.Prepare | DepthFlow/Server.py:244-245 | Definition: the request with `hash` set to the fingerprint of its configuration. Properties in FingerprintIgnoresBookkeeping and StepsKeepFingerprints. |
| Server.Lt | DepthFlow/Server.py:85-86 | Definition of `__lt__`: strictly higher priority. Properties in OrderIsStrictWeak and HeapTopIsHighestPriority. |
| Server.Gt | DepthFlow/Server.py:88-89 | Definition of `__gt__`: strictly lower priority. OrderIsStrictWeak proves it the mirror of `Lt`. |
| Server.OrderIsStrictWeak | DepthFlow/Server.py:85-89 | `a < b` holds exactly when `b > a`. `<` is irreflexive, asymmetric and transitive. Two payloads are unordered exactly when their priorities are equal. |
| Server.IsHeapTop | DepthFlow/Server.py:197 | Definition of the jobs `render_jobs.get` may hand out: no queued job sorts strictly before it under `__lt__`. Properties in HeapTopIsHighestPriority, HighestIndex and HigherPriorityFirst. |
| Server.HeapTopIsHighestPriority | DepthFlow/Server.py:197 | A job the heap may pop (no job sorts strictly before it) is exactly a job of maximal priority. |
| Server.HighestIndex | DepthFlow/Server.py:197 | For a non-empty queue: a poppable index, the first of maximal priority. |
| Server.Without | DepthFlow/Server.py:197 | Removing the popped job leaves the other jobs, one fewer, in their order, with the same multiset apart from the popped job. |
| Server.Live | DepthFlow/Server.py:269 | Definition of a key being present in the expiring cache: stored and `now` before its expiry, the negation of `config.hash not in self.render_data`. Properties in Lookup, Poll, SingleFlight, PendingMarkerWaits and EmptyVideoIsNeverServed. |
| Server.Lookup | DepthFlow/Server.py:250 | Definition of the expiring cache read (`render_data.get`): the stored value while `now` is before the entry's expiry, otherwise nothing. Properties in PutThenLookup and Poll. |
| Server.Put | DepthFlow/Server.py:270 | Definition of the cache write with a time-to-live (`render_data.set(..., expire=...)`). Properties in PutThenLookup and Work. |
| Server.Truthy | DepthFlow/Server.py:250 | Definition of the walrus test's truthiness: the pending `None` and empty bytes are falsy, other bytes and exceptions truthy. Properties in Poll, PendingMarkerWaits and EmptyVideoIsNeverServed. |
| Server.PutThenLookup | DepthFlow/Server.py:270 | A value written with a positive TTL is read back until it expires. Reads of every other key are unchanged. |
| Server.Poll | DepthFlow/Server.py:247-281 | One loop iteration, case by case. It serves a live truthy video with exactly its bytes, state unchanged, `cached` true exactly on iteration 1. It answers 500 with the message of a live failure, and the key is then absent. It admits exactly when nothing is live: a 30 s pending marker plus the request queued once. A live falsy value changes nothing and gives 503 exactly when `start + 30 < now`, otherwise a 0.1 s retry. No other key changes. |
| Server.Caught | DepthFlow/Server.py:222-224 | Definition of `video` after the `try`/`except`: the bytes, or the caught exception. What the worker then stores is stated by Work's ensures. |
| Server.Work | DepthFlow/Server.py:196-235 | One worker step, with the terminal write the code intends. It removes exactly the popped job and writes exactly one entry at that job's fingerprint, expiring `expire` seconds later, holding the video or the caught error. No other key changes. |
| Server.WorkAsWritten | DepthFlow/Server.py:200-235 | The worker step as written. When the job fails before the temporary file exists, the `finally` clause raises, the store is left unwritten and the worker thread dies. Otherwise it is `Work`. |
| Server.SetupFailureLosesResult | DepthFlow/Server.py:207-227 | As written, a request whose job failed in scene set-up keeps polling a pending marker (and would time out). With the intended write, the same poll answers 500 with the error. |
| Server.StepsKeepFingerprints | DepthFlow/Server.py:244-245 | Polls of fingerprinted requests and worker steps keep every queued job carrying its own fingerprint. |
| Server.SingleFlight | DepthFlow/Server.py:268-271 | After an admission, a second request for the same fingerprint while the marker lives queues nothing, and only waits or times out. |
| Server.FailureClearsForRetry | DepthFlow/Server.py:251-257 | The first poll that sees a failure answers 500 with it. The next poll for that fingerprint admits the job afresh with a new 30 s marker. |
| Server.PendingMarkerWaits | DepthFlow/Server.py:250-281 | A live pending marker is never served. The poll changes nothing and answers 503 exactly when the request is over 30 s old. |
| Server.EmptyVideoIsNeverServed | DepthFlow/Server.py:250 | An empty stored video is falsy. It is never served, and the poll only retries or times out without changing anything. |
| Server.MarkerExpiryReadmits | DepthFlow/Server.py:269-271 | A request still waiting when its 30 s marker expires queues the job a second time. |
| Server.WorkerResultServesEquivalentRequests | DepthFlow/Server.py:231-266 | Once a worker stored a non-empty video, any request with the same configuration is served exactly those bytes until the job's lifetime ends, whatever that request's priority, with `cached` exactly on iteration 1. |
| Server.HigherPriorityFirst | DepthFlow/Server.py:85-89 | With a low-priority job queued before a high-priority one, the high-priority job is popped first. |
| Server.Broker.constructor | DepthFlow/Server.py:187-191 | A new broker has an empty cache and an empty queue. |
| Server.Broker.Get | DepthFlow/Server.py:250 | Reads the broker's cache field exactly as `Lookup` does, changing nothing. |
| Server.Broker.PollStep | DepthFlow/Server.py:247-281 | Performs `Poll` in place: the new store, queue and response are exactly `Poll` of the old ones. |
| Server.Broker.WorkerStep | DepthFlow/Server.py:196-235 | Pops the job at a heap-top index and performs the intended step `Work` in place, returning the popped job. The step as written is `WorkAsWritten`. |
| EffectState.ReadBool | depthflow/state.py:22 | Decoding a bool uniform succeeds only on the uniform `("bool", name, b)`. |
| EffectState.ReadFloat | depthflow/state.py:23 | Decoding a float uniform succeeds only on the uniform `("float", name, x)`. |
| EffectState.ReadInt | depthflow/state.py:45 | Decoding an int uniform succeeds only on the uniform `("int", name, i)`. |
| EffectState.ReadVec2 | depthflow/state.py:236-238 | Decoding a vec2 uniform succeeds only on the uniform `("vec2", name, (x, y))`. |
| EffectState.VignettePipeline | depthflow/state.py:21-24 | Definition of the vignette `pipeline`. Properties in VignetteRoundTrip and PipelineWellTyped. |
| EffectState.LensPipeline | depthflow/state.py:41-45 | Definition of the lens `pipeline`. Properties in LensRoundTrip and PipelineWellTyped. |
| EffectState.BlurPipeline | depthflow/state.py:71-78 | Definition of the blur `pipeline`. Properties in BlurRoundTrip and BlurScalesOnlyIntensity. |
| EffectState.InpaintPipeline | depthflow/state.py:92-95 | Definition of the inpaint `pipeline`. Properties in InpaintRoundTrip and PipelineWellTyped. |
| EffectState.ColorsPipeline | depthflow/state.py:121-127 | Definition of the colors `pipeline`. Properties in ColorsRoundTrip and ColorsIgnoreEnable. |
| EffectState.OwnPipeline | depthflow/state.py:229-239 | Definition of the 11 uniforms `DepthState.pipeline` emits before the sub-pipelines. Properties in OwnRoundTrip and PairSettersTouchOneUniform. |
| EffectState.Offset | depthflow/state.py:166-169 | Definition of the `offset` getter. Properties in PairRoundTrips. |
| EffectState.WithOffset | depthflow/state.py:171-173 | Definition of the `offset` setter. Properties in PairRoundTrips and PairSettersTouchOneUniform. |
| EffectState.Center | depthflow/state.py:183-186 | Definition of the `center` getter. Properties in PairRoundTrips. |
| EffectState.WithCenter | depthflow/state.py:188-190 | Definition of the `center` setter. Properties in PairRoundTrips and PairSettersTouchOneUniform. |
| EffectState.Origin | depthflow/state.py:200-203 | Definition of the `origin` getter. Properties in PairRoundTrips. |
| EffectState.WithOrigin | depthflow/state.py:205-207 | Definition of the `origin` setter. Properties in PairRoundTrips and PairSettersTouchOneUniform. |
| EffectState.Pipeline | depthflow/state.py:228-244 | The state pipeline has 34 uniforms: the 11 own uniforms, then vignette, lens, inpaint, colors and blur, at fixed positions. |
| EffectState.VignetteRoundTrip | depthflow/state.py:21-24 | The vignette uniforms decode back to the vignette state, and the first is its enable flag. |
| EffectState.LensRoundTrip | depthflow/state.py:41-45 | The lens uniforms decode back to the lens state, and the first is its enable flag. |
| EffectState.InpaintRoundTrip | depthflow/state.py:92-95 | The inpaint uniforms decode back to the inpaint state, and the first is its enable flag. |
| EffectState.ColorsRoundTrip | depthflow/state.py:121-127 | The colors uniforms decode back to the colors state with `enable` false, since it is never sent. |
| EffectState.BlurRoundTrip | depthflow/state.py:71-78 | The blur uniforms decode back to the blur state, with the intensity unscaled, and the first is its enable flag. |
| EffectState.OwnRoundTrip | depthflow/state.py:229-239 | The 11 own uniforms, in the order height, steady, focus, invert, zoom, isometric, dolly, offset, center, origin, mirror, decode back to the own fields. |
| EffectState.PipelineRoundTrip | depthflow/state.py:228-244 | The whole pipeline decodes back to the state, up to `colors.enable`. |
| EffectState.PipelineInjective | depthflow/state.py:228-244 | Two states send the same uniforms exactly when they differ at most in `colors.enable` (both directions). |
| EffectState.ColorsIgnoreEnable | depthflow/state.py:121-127 | The colors pipeline ignores `enable`, sends six floats, and sends each field divided by 100, in field order. |
| EffectState.BlurScalesOnlyIntensity | depthflow/state.py:71-78 | The blur pipeline sends `intensity/100`. Changing intensity, start, end or exponent replaces only its own uniform; the others pass through. |
| EffectState.PipelineWellTyped | depthflow/state.py:228-244 | Every uniform's type name matches its value. |
| EffectState.PairRoundTrips | depthflow/state.py:166-207 | Setting `offset`, `center` or `origin` and reading it back gives the pair. Setting what was read changes nothing. Each setter writes only its own `_x`/`_y` fields. |
| EffectState.PairSettersTouchOneUniform | depthflow/state.py:166-239 | Setting a pair changes exactly its own uniform of the pipeline (positions 7, 8, 9). |
| EffectState.DefaultVignette | depthflow/state.py:12-18 | Definition of the `VignetteState` defaults: off, intensity 0.2, decay 20. Properties in DefaultsDisableEffects. |
| EffectState.DefaultLens | depthflow/state.py:29-38 | Definition of the `LensState` defaults: off, intensity 0.1, decay 0.4, quality 30. Properties in DefaultsDisableEffects. |
| EffectState.DefaultBlur | depthflow/state.py:50-68 | Definition of the `BlurState` defaults: off, intensity 1.0, start 0.6, end 1.0, exponent 2.0, quality 4, directions 16. Properties in DefaultsDisableEffects. |
| EffectState.DefaultInpaint | depthflow/state.py:83-89 | Definition of the `InpaintState` defaults: off, not black, limit 1.0. Properties in DefaultsDisableEffects. |
| EffectState.DefaultColors | depthflow/state.py:100-118 | Definition of the `ColorState` defaults: off, saturation, contrast, brightness and gamma 100, grayscale and sepia 0. Properties in DefaultsDisableEffects. |
| EffectState.DefaultDepthState | depthflow/state.py:134-224 | Definition of `DepthState()`: height 0.20, zoom 1.0, mirror on, every other camera field and pair 0, and each sub-state at its defaults. Properties in DefaultsDisableEffects, Animation.DefaultCamera and Animation.ResetInstallsDefaults. |
| EffectState.DefaultsDisableEffects | depthflow/state.py:12-155 | In the default pipeline the only true boolean uniform is the mirror flag, so every effect is off. Height is 0.20 and zoom is 1.0. |
| Animation.Members | depthflow/animation.py:39-45 | Lists exactly the names that neither start with `_` nor equal `members`, never more names than the namespace has. |
| Animation.MembersKeepOrder | depthflow/animation.py:40-45 | The listing preserves namespace order: listing a concatenation lists each half in turn. |
| Animation.MembersCons | depthflow/animation.py:40-45 | A listed name is kept in front, and any other name is dropped. |
| Animation.PrivateNamesNotListed | depthflow/animation.py:41-44 | `_ConstantBase`, `_WaveBase`, dunder entries and `members` are never listed. `Set`, `Add`, `Triangle` and `Orbital` are. |
| Animation.Read | depthflow/animation.py:157-161 | Definition of `current`: the depth-state field a target's dotted path names, booleans read as 1 or 0, integers as reals, and 0 for `Nothing`. Properties in StateView and StateStepInstallsItself. |
| Animation.StateView | depthflow/animation.py:49-88 | A depth state seen as the animated state has exactly one value for every target except `Nothing`. |
| Animation.ReverseTwice | depthflow/animation.py:138-146 | The time is unchanged without `reverse` and is `(1 - tau, 2*pi - cycle)` with it. Reversing twice is the identity. |
| Animation.Frac | depthflow/animation.py:303 | `x % 1` lies in [0, 1) and differs from `x` by an integer. |
| Animation.Reversed | depthflow/animation.py:142 | Definition of `getattr(self, "reverse", False)`: the wave's own flag, and false for `Set` and `Add`, which have none. Properties in ApplyComponent and ApplyStepKeepsComplete. |
| Animation.GetTime | depthflow/animation.py:138-146 | Definition of `get_time`. Properties in ReverseTwice. |
| Animation.TriangleWave | depthflow/animation.py:302-304 | Definition of `Triangle.compute`. Properties in TriangleBounded. |
| Animation.TriangleBounded | depthflow/animation.py:302-304 | The triangle wave lies within `bias ± abs(amplitude)`. |
| Animation.Progress | depthflow/animation.py:264-265 | The ramp's progress `max(0, min(1, normal))` lies in [0, 1]. |
| Animation.Compute | depthflow/animation.py:229-304 | `Set` yields its value with `cumulative` false, and `Add` yields its value with `cumulative` true. Waves and ramps keep the flag. It raises exactly for a linear ramp that divides by a zero length (`float division by zero`) or calls `math.pow(0, e)` with `e < 0` (`math domain error`); `math.pow` overflow is not modelled (Left out). |
| Animation.NegativeExponentAtStartRaises | depthflow/animation.py:263-266 | A ramp from 0 to 1 with exponent -1 raises the `math.pow` domain error at time 0 and succeeds at time 0.5. |
| Animation.Angle | depthflow/animation.py:289-296 | Definition of the sine and cosine argument `cycle * cycles + phase * tau`. Properties in WaveBounded. |
| Animation.WaveBounded | depthflow/animation.py:284-296 | A sine or cosine lies within `bias ± abs(amplitude)` when the abstract function stays in [-1, 1]. |
| Animation.LinearBetween | depthflow/animation.py:263-266 | A linear ramp succeeds exactly when it does not raise, and then, with `low <= high`, lies between them when `pow` keeps [0, 1] in [0, 1]. |
| Animation.ApplyComponent | depthflow/animation.py:163-168 | Without a target nothing changes. Otherwise it raises exactly when `compute` does. On success the target becomes the computed value, plus its current value (0 if absent) when cumulative after `compute`. No other target changes, and the component keeps the flag `compute` set. |
| Animation.SetOverwritesAddAccumulates | depthflow/animation.py:225-239 | `Set` overwrites its target with its value and `Add` adds its value to the current one, whatever the prior flag. `Set` leaves the flag false and `Add` leaves it true. |
| Animation.CumulativeAccumulatesAcrossFrames | depthflow/animation.py:163-168 | A cumulative wave applied twice adds its value twice. A non-cumulative one writes the same value both times. |
| Animation.Enabled | depthflow/animation.py:309-342 | Definition of `self.update(enable=True)`: the filter's parameters with `enable` on. Properties in FilterSwitchesOn. |
| Animation.ApplyFilter | depthflow/animation.py:309-342 | A filter's write keeps exactly the state's keys. Each target of its own sub-state reads as the filter's parameter, and every other target keeps its value. |
| Animation.ApplyStep | depthflow/animation.py:192-342 | Definition of one step's `apply`: components, `State`, `Nothing`, `Custom`, `Reset` and the filters. Properties in ApplyStepKeepsComplete, FilterSwitchesOn, ResetInstallsDefaults, StateStepInstallsItself, NothingStepChangesNothing and ApplyComponent. |
| Animation.ApplyStepKeepsComplete | depthflow/animation.py:192-342 | Every step keeps the state complete. A step raises exactly when it is a `Custom` step or a targeted linear ramp that raises at the step's time (zero length, or `pow(0, e)` with `e < 0`). |
| Animation.FilterSwitchesOn | depthflow/animation.py:309-342 | A filter step yields the filter with `enable` on. Its effect's enable target reads 1, and the camera and the other effects are unchanged. |
| Animation.ResetInstallsDefaults | depthflow/animation.py:213-217 | A reset installs the default depth state, whatever the state was. |
| Animation.StateStepInstallsItself | depthflow/animation.py:192-194 | A `State` step stays as it is and installs its own depth state, whatever the state was: every target then reads that state's field. |
| Animation.NothingStepChangesNothing | depthflow/animation.py:196-200 | A `Nothing` step succeeds and leaves the step and the state exactly as they were. |
| Animation.DefaultCamera | depthflow/state.py:134-155 | The default state reads height 0.20, zoom 1.0 and mirror on. |
| Animation.Invoke | depthflow/animation.py:554 | Definition of `animation.apply(scene)` at the scene's `tau` and `cycle`, as one step's `ApplyStep`. Properties in RunKeepsComplete and DepthAnimation.Apply. |
| Animation.Advance | depthflow/animation.py:553-554 | One loop iteration adds exactly one entry to the step list and keeps the earlier ones. After an error it neither invokes nor changes the step, and otherwise it invokes the step once. |
| Animation.RunSteps | depthflow/animation.py:552-554 | A run over the list keeps its length. It invokes at most every step, and all of them when none raises. |
| Animation.ErrorStops | depthflow/animation.py:552-554 | Once a step has raised, the later steps are neither invoked nor changed, and the state stays where the raise left it. |
| Animation.RaisedAt | depthflow/animation.py:552-554 | A step that raises ends the run with its message, after exactly that many invocations, leaving the later steps as given. |
| Animation.RunKeepsComplete | depthflow/animation.py:552-554 | Applying a whole step list keeps the state complete. |
| Animation.RunSequential | depthflow/animation.py:552-554 | Without a raise in `a`, running `a + b` is running `a` and then `b` on the state `a` left. |
| Animation.ApplySteps | depthflow/animation.py:552-554 | The loop yields exactly the run `RunSteps` specifies: step list, state and error. List order is RunSteps's own, shown by RunSequential. |
| Animation.Scene.constructor | depthflow/scene.py:38 | A new scene holds the default depth state at the given time. |
| Animation.DepthAnimation.constructor | depthflow/animation.py:543 | A new animation has no steps. |
| Animation.DepthAnimation.Add | depthflow/animation.py:545-547 | Adding appends exactly the returned copy, keeps the earlier steps, and makes the animation truthy. |
| Animation.DepthAnimation.IsActive | depthflow/animation.py:556-557 | Definition of `__bool__`. Add proves it true afterwards and Clear false. |
| Animation.DepthAnimation.Clear | depthflow/animation.py:549-557 | After `clear` there are no steps, and the animation is falsy. |
| Animation.DepthAnimation.Apply | depthflow/animation.py:552-554 | Applies the steps to the scene in place. Steps, state and error are exactly `RunSteps` of the old steps and state at the scene's time; all steps are invoked when none raises. The scene's time is unchanged. |

## Left out

- Concurrency: the uvicorn/asyncio server, worker threads, blocking `PriorityQueue.get`, `task_done` and the `launch`, `runpod` and `test` entry points. Polls and worker steps are atomic transitions, and no interleaving is modelled beyond their sequencing.
- `diskcache` size-limit eviction and persistence (DepthFlow/Server.py:188-191): the store only expires by time. There is one clock parameter for both `time.time` (cache expiry) and `time.perf_counter` (request timeout).
- `hash(config)`: `BrokenModel.__hash__` is not part of this model. The fingerprint is a function parameter of the configuration alone.
- The renderer: `DepthScene.main`, estimators, upscalers, FFmpeg and the temporary file. They are replaced by an `Outcome` (video bytes, a raise during scene set-up, or a raise while rendering).
- Server.Poll: the `took` header is kept as the real `now - start`, without the two-decimal formatting.
- Server.Poll: `DepthPayload(**config)` validation of a raw dictionary is not modelled; requests are payloads.
- Heap order among equal priorities: the code leaves it open, so `WorkerStep` takes any heap-top index the caller names.
- `sin`, `cos` and `pow` are abstract; floats are idealised as reals.
- Animation.Compute: `math.pow` raising `OverflowError` (a tiny positive progress with a large negative exponent) is not modelled, since reals do not overflow; the ramp then succeeds in the model. The `math domain error` of `pow(0, e)` with `e < 0` is modelled.
- `Animation.Custom`: its `apply` takes `tau` and `cycle`, which the step loop never passes. The model raises the resulting `TypeError` whenever a custom step is applied. The `exec` path (and its `CUSTOM_CODE` guard) is unreachable from the step loop and is not modelled.
- The presets (`Vertical`, `Horizontal`, `Zoom`, `Circle`, `Dolly`, `Orbital`) are not modelled: their amplitude and phase constants are out of scope. `members` is modelled on names, not on the class objects it yields.
- `BrokenAttribute.get`/`set` are not part of this model. The model assumes they resolve each target's key to the field it names. A float written to a boolean or integer field is kept as a real.
- Animation.DepthAnimation.Add: `copy.deepcopy` and the aliasing of steps and of the state a `State` step installs are modelled as value semantics. Mutating a step or state after adding it is not captured.
- Animation.Compute: `Set`/`Add.compute` assign `self.cumulative`. The model returns the new flag and writes it back into the step list rather than mutating the step object.
- EffectState.PairRoundTrips: the `offset`/`center`/`origin` setters assign two fields in place. The model states them as functional record updates.
- Pydantic/typer validation and the `Option` ranges, the UI, the shader scene, the estimators, logging and the examples are not modelled.

## Findings

| source | as written | input that shows it | evidently intended | confidence | as-written member | corrected member |
|---|---|---|---|---|---|---|
| DepthFlow/Server.py:200-227 | `finally: os.unlink(temp.name)` runs even when the job raised before the `with tempfile...` block bound `temp`. The unlink then raises (`UnboundLocalError` on a worker's first job, `FileNotFoundError` for the previous job's already deleted file later), the terminal `render_data.set` is skipped, and the worker thread ends. | A payload whose `scene.input(...)` raises (an unreadable image) on a fresh worker: the request keeps seeing its pending marker; when the marker expires it queues the failing job again (MarkerExpiryReadmits), and it then answers 503 instead of 500 with the error. | The caught exception is stored under the job's fingerprint and the worker goes on. | not executed | Server.WorkAsWritten, Server.SetupFailureLosesResult | Server.Work |
