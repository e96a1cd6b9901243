# Vulkan adapter negotiation and the SDL wrapper, modelled in Dafny

This project models the core of a small C++ program that opens an SDL window and then sets up
Vulkan for it. `Vulkan::Instance`'s constructor does the following, stopping at the first step
that fails:

1. opens an SDL window with a GL context;
2. asks SDL which instance extensions it needs;
3. creates a Vulkan instance with them;
4. creates a surface;
5. enumerates the physical devices (adapters);
6. picks the first adapter that satisfies two conditions: by the end of its scan, both the
   graphics and the presentation candidate are set, and the pluggable `DeviceSelectionRule`
   accepts it. The candidates carry over from earlier adapters, so they need not come from the
   adapter picked.

Around it sits a thin SDL wrapper: rectangles, the `PtrWrapper` base, surfaces, textures, and
windows with their GL contexts. It also has a timer, whose callback computes the next interval in
32-bit arithmetic.

Modules, one per part of the program:

- `Wrappers`: `Option` and `Result`.
- `CTypes`: `uint32` and `int32`, and the C conversions `uint32_t(x)` and `int32_t(x)` as reduction
  modulo 2^32.
- `SdlWrapper` (`src/SDLWrapper.h`, `src/SDLWrapper.cpp`): `Rect` and `PtrWrapper` as classes, the
  `Surface` constructor's argument check, the null-safe getters, texture and window teardown, and
  the timer's next-interval arithmetic.
- `VulkanTypes` (`src/VulkanWrapper2.hpp`): `QueueFamily` and its defaults, the queue flag bits,
  and the selection rules (`AnythingIsFine` or a custom predicate with its description).
- `VulkanSelection`: the decision logic of the constructor as functions over plain data.
  - `Classify` is `listQueueFamilies`.
  - `ScanFamilies` is the family loop.
  - `Judge` holds the three checks at the end of an adapter.
  - `NegotiateFrom` is the adapter loop.
  - The lemmas state what these compute.
- `VulkanFreshSelection`: the adapter loop as it is evidently meant to work, with the candidates
  reset for each adapter (see Findings).
- `VulkanInstance`: the `Instance` class.
  - Its fields are the members `window`, `instance` (as `hasInstance`), `surface` (as
    `hasSurface`), `gfxQueueFamily` and `preQueueFamily`.
  - One field, `enabledExtensions`, is not a member of the program's class: it records the
    extension list that the constructor keeps in a local variable and passes to `vkCreateInstance`.
  - Its methods run the loops of the source: `ListQueueFamilies`, `ScanQueueFamilies`, `CheckGpu`
    and `SelectGpu`.
  - `ListPhysicalDevices` and `ListNeededSdlExtensions` model the two-phase queries.
  - `Initialize` is the constructor body and `Destroy` is the destructor.
  - `ListQueueFamilies`, `ScanQueueFamilies`, `CheckGpu`, `SelectGpu` and `Initialize` are proved
    against the functions of `VulkanSelection`. The other methods state their results and new
    state directly.

The model never calls Vulkan or SDL. Each native call's answer is an input: a `Native` value, a
`Gpu` with its reported queue families and surface-support answers, or a `WindowNative`. The calls
that create or release something are recorded in an event log, so that what a failed construction
leaves alive can be stated. The two queue-family members start at -1 once per instance and are
threaded through all adapters, because the program never resets them.

## Model

| member | source | states |
|---|---|---|
| CTypes.ToUint32 | src/SDLWrapper.cpp:204 | `uint32_t(x)` is congruent to x modulo 2^32 and is x itself when x already fits |
| CTypes.ToInt32 | src/SDLWrapper.cpp:201 | `int32_t(x)` is congruent to x modulo 2^32 and is x itself when x fits in 32 signed bits |
| SdlWrapper.Rect.constructor | src/SDLWrapper.h:84 | `Rect()` sets x, y, w and h to 0 |
| SdlWrapper.Rect.FromXYWH | src/SDLWrapper.h:89-92 | `Rect(x, y, w, h)` sets exactly those four fields to the arguments |
| SdlWrapper.Rect.SetXYWH | src/SDLWrapper.h:97-101 | overwrites all four fields with the arguments, changes nothing else and returns the same object |
| SdlWrapper.PtrWrapper.constructor | src/SDLWrapper.h:133 | a new wrapper holds null and is not Ok |
| SdlWrapper.PtrWrapper.Ok | src/SDLWrapper.h:128 | Ok exactly when the wrapped pointer is non-null |
| SdlWrapper.PtrWrapper.GetWrapped | src/SDLWrapper.h:116 | returns the wrapped pointer unchanged, non-null exactly when Ok |
| SdlWrapper.NewSurface | src/SDLWrapper.cpp:109-118 | a negative width, height or depth raises the dimensions error before any allocation is attempted; a failed allocation raises the SDL error; otherwise the surface wraps what SDL allocated |
| SdlWrapper.DestroySurface | src/SDLWrapper.cpp:122-126 | the surface is freed exactly when it wraps something |
| SdlWrapper.GetFormat | src/SDLWrapper.h:153 | null on an empty surface, otherwise the surface's format |
| SdlWrapper.GetPixels | src/SDLWrapper.h:154 | null on an empty surface, otherwise its pixel buffer |
| SdlWrapper.GetWidth | src/SDLWrapper.h:155 | 0 on an empty surface, otherwise its width |
| SdlWrapper.GetHeight | src/SDLWrapper.h:156 | 0 on an empty surface, otherwise its height |
| SdlWrapper.GetPitch | src/SDLWrapper.h:157 | 0 on an empty surface, otherwise its pitch |
| SdlWrapper.RefusedSurfaceReadsAsEmpty | src/SDLWrapper.h:153-157 | every getter of a wrapper that is not Ok reads as null or 0 |
| SdlWrapper.NewTexture | src/SDLWrapper.cpp:138-141 | the texture wraps whatever SDL created, possibly null |
| SdlWrapper.DestroyTexture | src/SDLWrapper.cpp:145-151 | releases exactly when the pointer was non-null and leaves it null |
| SdlWrapper.Window.Holding | src/SDLWrapper.h:229-230 | a window records which of its two handles exist |
| SdlWrapper.Window.Destroy | src/SDLWrapper.cpp:238-246 | deletes the GL context, then destroys the window, each only if it exists |
| SdlWrapper.NewWindow | src/SDLWrapper.cpp:210-236 | a failed window creation creates nothing; a failed context creation destroys the window before raising; on either failure no window or context is left alive; on success one of each is alive |
| SdlWrapper.TimerTypeValue | src/SDLWrapper.h:190-193 | `kOneShot` is 0 and `kRepeated` is 1 |
| SdlWrapper.TimerTypeOfValue | src/SDLWrapper.h:190-193 | exactly the values 0 and 1 name a timer type |
| SdlWrapper.TimerTypeValueRoundTrip | src/SDLWrapper.h:190-193 | value and type convert into each other both ways |
| SdlWrapper.Delay | src/SDLWrapper.cpp:201 | `int32_t delay = timePassed - interval` in 32-bit arithmetic; stated by `DelayCongruent` |
| SdlWrapper.RescheduleDefined | src/SDLWrapper.cpp:204 | the signed subtraction `int32_t(interval) - delay` stays within `int32_t`, which `NextInterval` requires of a repeated timer |
| SdlWrapper.DelayCongruent | src/SDLWrapper.cpp:199-201 | the `int32_t` delay equals `timePassed - interval` modulo 2^32 |
| SdlWrapper.NextInterval | src/SDLWrapper.cpp:192-204 | a one-shot timer returns 0; a repeated one returns `(2*interval - timePassed) mod 2^32`, and exactly `interval` when the callback is on time; the signed subtraction must not overflow |
| SdlWrapper.Timer.constructor | src/SDLWrapper.cpp:171-175 | type and interval are those given, and the payload has not run |
| SdlWrapper.Timer.CallPayload | src/SDLWrapper.cpp:186-206 | runs the payload exactly once, for both types, and returns the next interval |
| VulkanTypes.DefaultQueueFamily | src/VulkanWrapper2.hpp:28-34 | index -1, all five capability flags false, no queues available |
| VulkanTypes.Describe | src/VulkanWrapper2.hpp:59-68 | `AnythingIsFine` describes itself as "anything is fine"; a custom rule by its own description |
| VulkanTypes.IsSuitable | src/VulkanWrapper2.hpp:60-69 | `AnythingIsFine` accepts every adapter; a custom rule accepts exactly what its predicate accepts |
| VulkanSelection.Translate | src/VulkanWrapper2.cpp:208-218 | one reported family as a record; what the record holds is stated by `Classify`'s contract |
| VulkanSelection.Classify | src/VulkanWrapper2.cpp:203-223 | one record per reported family in reported order, the record at position k has index k, each capability flag is true exactly when its bit is set, presentation is the surface-support answer alone, and the queue count stays 0 |
| VulkanSelection.Consider | src/VulkanWrapper2.cpp:86-98 | a family without graphics changes neither candidate, and a candidate already set is never overwritten |
| VulkanSelection.FirstWhere | src/VulkanWrapper2.cpp:84-98 | the position of the first record with the property, and no earlier record has it; -1 if none has it |
| VulkanSelection.ScanFamilies | src/VulkanWrapper2.cpp:84-113 | the family loop over one adapter's records; its result is stated by `ScanFamiliesFrom` and `FreshScanFindsFirstFamilies` |
| VulkanSelection.ScanFamiliesFrom | src/VulkanWrapper2.cpp:84-113 | after the family loop a candidate that was set is unchanged, and an unset one is the index of the first graphics family (resp. the first graphics family that can present), or stays as it was if there is none |
| VulkanSelection.FreshScanFindsFirstFamilies | src/VulkanWrapper2.cpp:86-98 | from -1, the graphics candidate is the first graphics family and the presentation candidate the first graphics family that can present, each -1 if there is none |
| VulkanSelection.FreshScanOrdersCandidates | src/VulkanWrapper2.cpp:86-98 | from -1, a presentation candidate implies a graphics candidate no later than it; the two are equal exactly when the first graphics family can present |
| VulkanSelection.AdapterScan | src/VulkanWrapper2.cpp:81-113 | one adapter's family list and family loop; stated in closed form by `AdapterScanClosedForm` |
| VulkanSelection.Judge | src/VulkanWrapper2.cpp:115-127 | a missing graphics candidate is reported first, then a missing presentation candidate, and an adapter is selected exactly when both are set and the rule accepts it |
| VulkanSelection.NegotiateFrom | src/VulkanWrapper2.cpp:65-128 | the adapter loop from adapter i with the members at given values; stated by `NegotiateFromUnfold`, `NegotiateFromSelects` and `NegotiateFromRecords` |
| VulkanSelection.Negotiate | src/VulkanWrapper2.cpp:62-128 | the adapter loop from the first adapter with both members at -1; stated by `FirstAcceptanceWins`, `NoAdapterNoSelection` and `AnythingIsFineSelectsFirstDrawableAdapter` |
| VulkanSelection.NegotiateFromUnfold | src/VulkanWrapper2.cpp:65-128 | one iteration of the adapter loop from any member values: scan adapter i, judge it, and stop there exactly when it is selected |
| VulkanSelection.NegotiateFromStep | src/VulkanWrapper2.cpp:65-128 | one iteration of the adapter loop: it stops at adapter i exactly when adapter i is accepted, and otherwise continues with the members as adapter i's scan left them |
| VulkanSelection.NegotiateFromSelects | src/VulkanWrapper2.cpp:65-128 | from adapter i on, the loop selects the first accepted adapter or none, and examines exactly the adapters up to that one |
| VulkanSelection.NegotiateFromRecords | src/VulkanWrapper2.cpp:65-128 | from adapter i on, every examined adapter gets the verdict its checks call for, and the members end as the scans of all examined adapters left them |
| VulkanSelection.FirstAcceptanceWins | src/VulkanWrapper2.cpp:63-133 | the selected adapter is the smallest index that passes both checks and the rule; no adapter after it is examined; -1 when none passes |
| VulkanSelection.NoAdapterNoSelection | src/VulkanWrapper2.cpp:63-65 | with no adapter, nothing is selected and both members stay -1 |
| VulkanSelection.AdapterScanClosedForm | src/VulkanWrapper2.cpp:81-113 | one adapter's scan in closed form; a first drawable family exists exactly when the adapter has a graphics family that can present, and then a first graphics family exists too |
| VulkanSelection.CandidatesAfterPresentation | src/VulkanWrapper2.cpp:65-113 | after n adapters the presentation member is set exactly when one of them had a drawable family, and then the graphics member is set too |
| VulkanSelection.AnythingIsFineSelectsFirstDrawableAdapter | src/VulkanWrapper2.cpp:65-128 | under `AnythingIsFine` an adapter is selected exactly when some adapter has a graphics family that can present, and the selected one is the first such adapter |
| VulkanSelection.UnsetCandidatesGiveFirstFamiliesOfAdapter | src/VulkanWrapper2.cpp:84-98 | an adapter reached with both members at -1 leaves its own first graphics and first drawable family in them |
| VulkanSelection.SingleDrawableFamilyIsChosen | src/VulkanWrapper2.cpp:65-128 | one adapter with one graphics-and-present family is selected with both members 0 |
| VulkanSelection.SplitGraphicsAndPresentationIsRejected | src/VulkanWrapper2.cpp:86-119 | a graphics family that cannot present, plus a present-only family, gives no presentation candidate and no selection, whatever the rule |
| VulkanSelection.FirstOfTwoGoodAdaptersIsChosen | src/VulkanWrapper2.cpp:121-126 | of two adapters that would both do, the first is selected |
| VulkanSelection.CarriedGraphicsIndexOutlivesItsAdapter | src/VulkanWrapper2.cpp:65-128 | the as-written loop can select an adapter with a graphics index that is not one of its families |
| VulkanSelection.CarriedCandidatesSelectAdapterWithoutFamilies | src/VulkanWrapper2.cpp:65-128 | with a custom rule, the as-written loop can select an adapter that has no queue family at all |
| VulkanFreshSelection.NegotiateFreshFrom | src/VulkanWrapper2.cpp:65-128 | the adapter loop from adapter i with the members reset to -1 before each adapter; stated by `NegotiateFreshFromSelects` |
| VulkanFreshSelection.NegotiateFresh | src/VulkanWrapper2.cpp:62-128 | the reset loop from the first adapter; stated by `FreshOutcomeBelongsToChosenAdapter` |
| VulkanFreshSelection.FreshScanOfDrawableAdapter | src/VulkanWrapper2.cpp:84-98 | a fresh scan of an adapter with a drawable family names that adapter's first graphics family and first drawable family |
| VulkanFreshSelection.FreshScanPasses | src/VulkanWrapper2.cpp:115-120 | a fresh scan passes both checks exactly when the adapter has a drawable family |
| VulkanFreshSelection.NegotiateFreshFromSelects | src/VulkanWrapper2.cpp:65-128 | with the reset, the loop from adapter i selects the first adapter usable on its own, and the members are that adapter's own scan |
| VulkanFreshSelection.FreshOutcomeBelongsToChosenAdapter | src/VulkanWrapper2.cpp:65-128 | with the reset, the selected adapter is the first one usable on its own, and both indices are families of that adapter, graphics no later than presentation |
| VulkanFreshSelection.FreshAndAsWrittenChooseSameAdapterUnderAnythingIsFine | src/VulkanWrapper2.cpp:65-128 | under `AnythingIsFine` the reset changes the indices but not the adapter |
| VulkanInstance.Instance.Blank | src/VulkanWrapper2.hpp:95-101 | the members before the constructor body runs: no window, no handles, both queue families -1 |
| VulkanInstance.Instance.ListNeededSdlExtensions | src/VulkanWrapper2.cpp:230-252 | either query failing raises the SDL error text; otherwise it returns exactly the names the window needs, as many as the first query counted |
| VulkanInstance.Instance.ListPhysicalDevices | src/VulkanWrapper2.cpp:168-185 | a failing count query raises; a count of 0 gives the empty list after one query; otherwise a failing fill query raises "(2nd)" and a succeeding one gives every adapter counted |
| VulkanInstance.Instance.ListQueueFamilies | src/VulkanWrapper2.cpp:189-226 | the loop with its running family index builds exactly the records `Classify` describes |
| VulkanInstance.Instance.ScanQueueFamilies | src/VulkanWrapper2.cpp:84-113 | the family loop leaves the members as `ScanFamilies` says, starting from their values on entry |
| VulkanInstance.Instance.CheckGpu | src/VulkanWrapper2.cpp:81-127 | one adapter: the members take its scan, the verdict is `Judge`'s, and the rule is called exactly when the verdict involves it |
| VulkanInstance.Instance.SelectGpu | src/VulkanWrapper2.cpp:62-128 | the loop with its `break` yields the selection, members and verdicts of `NegotiateFrom`, and calls the rule for exactly the adapters whose verdict involves it |
| VulkanInstance.RuleCallsExactly | src/VulkanWrapper2.cpp:115-121 | the recorded rule calls are exactly the adapters that passed both checks, in increasing order |
| VulkanInstance.Instance.DropWindow | src/VulkanWrapper2.hpp:95 | dropping the owned window deletes its context and then destroys it |
| VulkanInstance.Instance.Initialize | src/VulkanWrapper2.cpp:13-133 | each step's failure, in order, with its error and the exact resource log; the instance is released only when no adapter is selected; on success the members hold the selected adapter's queue families as `Negotiate` computes them, and window, instance and surface are alive |
| VulkanInstance.Instance.Destroy | src/VulkanWrapper2.cpp:159-164 | releases the instance handle if there is one, then the window; never the surface |
| VulkanInstance.NewInstance | src/VulkanWrapper2.hpp:89-90 | with no rule given, `AnythingIsFine` is used; construction succeeds exactly when every native step succeeds and some adapter is selected; each failing step raises its own error, and "could not find suitable GPU device" is raised when no adapter is selected; on success the window and its GL context are alive along with the instance and surface; a failure leaves no window or context alive, and an instance alive exactly when the surface or the enumeration failed |
| VulkanInstance.ConstructionSucceedsIffSomeAdapterPasses | src/VulkanWrapper2.cpp:130-133 | once the native steps succeed, construction fails exactly when no adapter passes both checks and the rule |
| VulkanInstance.ConstructAndDestroy | src/VulkanWrapper2.cpp:159-164 | constructing an instance and, on success, destroying it leaves no window or GL context; after a success no instance handle remains but the surface does; after a failure an instance handle remains exactly when the surface or the enumeration failed |

## Left out

- Diagnostic output: every `std::cout` line is left out, including the API-version decoding at
  src/VulkanWrapper2.cpp:72-79. The per-family counter `queueIndex` (line 83) is printed but never
  incremented.
- `vkGetPhysicalDeviceFeatures` is dropped: its answer is never used.
- The `VkDeviceQueueCreateInfo` and `VkDeviceCreateInfo` set up at the end of the constructor
  (src/VulkanWrapper2.cpp:135-154) are dropped: they are never used, and no logical device is
  created. `LogicalDevice`'s constructor (src/VulkanWrapper2.hpp:114) is declared but never
  defined. `PhysicalDevice` (src/VulkanWrapper2.hpp:40-48) is a defined record, but it is never
  used: the `physicalDevices` member (src/VulkanWrapper2.hpp:98) is never filled.
- The application and engine info passed to `vkCreateInstance` is dropped. The model keeps only
  the extension list and the result code.
- The two-phase queries assume the driver gives the same answer twice. The count from the first
  `vkEnumeratePhysicalDevices`, `vkGetPhysicalDeviceQueueFamilyProperties` or
  `SDL_Vulkan_GetInstanceExtensions` call equals the length of the list the second call fills, and
  counts are unbounded rather than `uint32_t`.
- VulkanInstance.Instance.ListNeededSdlExtensions: the additional extension list is empty, as in
  the source. The model therefore does not show that enabling the commented-out extension would be
  overwritten by the second query, which fills the list from its start.
- `SDL_GetError` is one string per query. Its value is not tracked separately for each call.
- Custom selection rules are pure predicates on the device properties. A C++ rule could keep state
  or behave differently on repeated calls.
- Handles are not modelled as pointers, so pointer identity and aliasing are out of scope.
  `window->unwrap()` is called by the Vulkan wrapper but not declared in `src/SDLWrapper.h`; the
  model passes the window's answers directly.
- SdlWrapper.NewSurface and SdlWrapper.DestroySurface: `Surface::Discard` is declared but never
  defined, so the destructor's direct `SDL_FreeSurface` is what is modelled. The surface's format,
  pixels and sizes are whatever SDL returns; pixel contents and `blit` are left out.
- SdlWrapper.Timer.CallPayload: the payload runs on SDL's timer thread, and registering and
  removing the timer (`SDL_AddTimer`, `SDL_RemoveTimer`) are left out; only the count of payload
  runs and the arithmetic are modelled. The precondition excludes the signed overflow of
  `int32_t(interval) - delay`, which is undefined behaviour in C++.
- `SDL::Library`, `EventLoop` (including `Run` and `PushUserEvent`), `Renderer`, and the GL
  attribute calls before window creation are thin wrappers over SDL or I/O, and are left out.
- src/VulkanWrapper.cpp and src/VulkanWrapper.h are an older wrapper and are not part of this model.
  Neither are src/App.cpp, src/App.h and src/Main.cpp.
- `gpuSelected` is a local of the constructor and is not stored on the object. VulkanInstance.NewInstance
  returns it only so that the selection can be stated.
- The model follows the program as written, including where it is surprising:
  - The candidates carry over from one adapter to the next (see Findings).
  - `queuesAvailable` is never filled in.
  - The window is opened before the extensions are queried, and the surface is created after the
    instance.
  - The instance handle leaks when surface creation or enumeration fails.
  - The surface is never released.
  - The selected adapter is not kept.

## Findings

| source | as written | input that shows it | evidently intended | confidence | as-written member | corrected member |
|---|---|---|---|---|---|---|
| src/VulkanWrapper2.cpp:65-128 | `gfxQueueFamily` and `preQueueFamily` are set at most once per instance and never reset between adapters, so an adapter is judged, and its queue families named, by what earlier adapters left behind | adapter "a" has families [compute, graphics without presentation] and adapter "b" has [graphics with presentation]; "b" is selected with graphics family 1, and "b" has only family 0. With the rule "accept b" and adapters a = [graphics with presentation], b = [], "b" is selected although it has no queue family at all | both candidates start at -1 for each adapter, so the selected adapter is the first one usable on its own and both indices are its own families | not executed | VulkanSelection.CarriedGraphicsIndexOutlivesItsAdapter | VulkanFreshSelection.FreshOutcomeBelongsToChosenAdapter |

The `Instance` class keeps the behaviour as written, because that is what the program does. Under
`AnythingIsFine` the adapter chosen is the same either way
(`VulkanFreshSelection.FreshAndAsWrittenChooseSameAdapterUnderAnythingIsFine`); the indices are
what differ. `VulkanSelection.CarriedCandidatesSelectAdapterWithoutFamilies` shows a custom rule
changing the adapter itself.
