/**
 * `Vulkan::Instance`: the object whose constructor opens an SDL window, creates a Vulkan instance
 * and a drawing surface for it, enumerates the adapters and picks one. The Vulkan and SDL calls
 * are not made: their answers are the fields of `Native`, and the calls that create or release
 * something are recorded, in order, in the event log each step returns.
 */
module VulkanInstance {
  import opened Wrappers
  import opened CTypes
  import Sdl = SdlWrapper
  import opened VulkanTypes
  import opened VulkanSelection

  /** The size of the window the instance opens. */
  const DefaultWindowWidth: int32 := 1024
  const DefaultWindowHeight: int32 := 1024

  // ----------------------------------------------------------------------------------------------
  // What the native calls answer

  /** The two `SDL_Vulkan_GetInstanceExtensions` calls: whether each succeeds, the names the window
      needs (the first call reports how many), and what `SDL_GetError` says. */
  datatype ExtensionQuery = ExtensionQuery(countOk: bool, namesOk: bool, names: seq<string>, sdlError: string)

  /** The two `vkEnumeratePhysicalDevices` calls: their result codes and the adapters present
      (the first call reports how many). */
  datatype DeviceEnumeration = DeviceEnumeration(countResult: int, fillResult: int, present: seq<Gpu>)

  /** Everything the constructor asks of SDL and of the Vulkan driver. */
  datatype Native = Native(
    window: Sdl.WindowNative,
    extensions: ExtensionQuery,
    createInstanceResult: int,
    surfaceCreated: bool,
    devices: DeviceEnumeration)

  /** `Vulkan::Error` and the `SDL::Error` the window constructor raises. */
  datatype Error = VulkanError(what: string) | SdlError(sdl: Sdl.Error)

  function ExtensionsError(sdlError: string): Error {
    VulkanError("SDL_Vulkan_GetInstanceExtensions() failed: " + sdlError)
  }

  const CreateInstanceError := VulkanError("vkCreateInstance() failed (incompatible driver or not enough memory?)")
  const CreateSurfaceError := VulkanError("SDL_Vulkan_CreateSurface() failed")
  const EnumerateError := VulkanError("vkEnumeratePhysicalDevices() failed")
  const EnumerateFillError := VulkanError("vkEnumeratePhysicalDevices() failed (2nd)")
  const NoSuitableGpuError := VulkanError("could not find suitable GPU device")

  // ----------------------------------------------------------------------------------------------
  // The resource log

  /** A call that creates or releases something: a window event, or a Vulkan handle. */
  datatype NativeEvent = Windowing(e: Sdl.WindowEvent) | InstanceCreated | SurfaceCreated | InstanceDestroyed

  /** A window log, as part of the instance's log. */
  function Lift(ws: seq<Sdl.WindowEvent>): (es: seq<NativeEvent>)
    ensures |es| == |ws|
    ensures forall k :: 0 <= k < |ws| ==> es[k] == Windowing(ws[k])
  {
    seq(|ws|, k requires 0 <= k < |ws| => Windowing(ws[k]))
  }

  function Count(log: seq<NativeEvent>, e: NativeEvent): int {
    multiset(log)[e] as int
  }

  function OpenWindows(log: seq<NativeEvent>): int {
    Count(log, Windowing(Sdl.WindowCreated)) - Count(log, Windowing(Sdl.WindowDestroyed))
  }

  function OpenContexts(log: seq<NativeEvent>): int {
    Count(log, Windowing(Sdl.ContextCreated)) - Count(log, Windowing(Sdl.ContextDeleted))
  }

  function OpenInstances(log: seq<NativeEvent>): int {
    Count(log, InstanceCreated) - Count(log, InstanceDestroyed)
  }

  /** Surfaces are created and never released. */
  function OpenSurfaces(log: seq<NativeEvent>): int {
    Count(log, SurfaceCreated)
  }

  /** A window and its GL context coming up. */
  const WindowUp: seq<NativeEvent> := [Windowing(Sdl.WindowCreated), Windowing(Sdl.ContextCreated)]

  /** `~Window()` on a window that holds both handles. */
  const WindowDown: seq<NativeEvent> := [Windowing(Sdl.ContextDeleted), Windowing(Sdl.WindowDestroyed)]

  // ----------------------------------------------------------------------------------------------
  // The instance

  class Instance {
    /** `window`: the owned SDL window, null until it has been created. */
    var window: Sdl.Window?
    /** Whether `instance` holds a created `VkInstance`. */
    var hasInstance: bool
    /** Whether `surface` holds a created `VkSurfaceKHR`. */
    var hasSurface: bool
    /** The extension names passed to `vkCreateInstance`. The program keeps them in a local of
        the constructor, not in a member; they are a field here so that the contracts can name them. */
    var enabledExtensions: seq<string>
    /** `gfxQueueFamily` and `preQueueFamily`, -1 meaning "none yet". They are shared by every
        adapter the constructor examines. */
    var gfxQueueFamily: int
    var preQueueFamily: int

    /** The members as their declarations initialise them, before the constructor body runs:
        no window, no handles, both queue families -1. */
    constructor Blank()
      ensures window == null && !hasInstance && !hasSurface && enabledExtensions == []
      ensures gfxQueueFamily == -1 && preQueueFamily == -1
    {
      window := null;
      hasInstance, hasSurface := false, false;
      enabledExtensions := [];
      gfxQueueFamily, preQueueFamily := -1, -1;
    }

    function Members(): Candidates
      reads this
    {
      Candidates(gfxQueueFamily, preQueueFamily)
    }

    /**
     * `listNeededSDLExtensions`: the first query gives the count, the list is sized to the
     * (empty) additional list plus that count, and the second query fills it. Either query
     * failing is an error carrying SDL's message; otherwise the window's names come back, exactly
     * as many as the first query counted.
     */
    method ListNeededSdlExtensions(q: ExtensionQuery) returns (r: Result<seq<string>, Error>)
      ensures !q.countOk ==> r == Failure(ExtensionsError(q.sdlError))
      ensures q.countOk && !q.namesOk ==> r == Failure(ExtensionsError(q.sdlError))
      ensures q.countOk && q.namesOk ==> r.Success? && r.value == q.names && |r.value| == |q.names|
    {
      if !q.countOk {
        return Failure(ExtensionsError(q.sdlError));
      }
      var count := |q.names|;
      var extensions: seq<string> := [];
      var additionalExtensionCount := |extensions|;
      if !q.namesOk {
        return Failure(ExtensionsError(q.sdlError));
      }
      extensions := extensions + q.names;
      return Success(extensions);
    }

    /**
     * `listPhysicalDevices`: a failing count query is an error; a count of 0 gives the empty list
     * without a second query; otherwise a failing fill query is an error and a succeeding one
     * gives every adapter present, as many as were counted.
     */
    method ListPhysicalDevices(e: DeviceEnumeration) returns (r: Result<seq<Gpu>, Error>, queries: nat)
      ensures e.countResult != 0 ==> r == Failure(EnumerateError) && queries == 1
      ensures e.countResult == 0 && e.present == [] ==> r == Success([]) && queries == 1
      ensures e.countResult == 0 && e.present != [] && e.fillResult != 0 ==>
                r == Failure(EnumerateFillError) && queries == 2
      ensures e.countResult == 0 && e.present != [] && e.fillResult == 0 ==>
                r == Success(e.present) && queries == 2
      ensures r.Success? ==> |r.value| == |e.present|
    {
      queries := 1;
      if e.countResult != 0 {
        return Failure(EnumerateError), queries;
      }
      var gpuCount := |e.present|;
      var gpus: seq<Gpu> := [];
      if gpuCount > 0 {
        queries := 2;
        if e.fillResult != 0 {
          return Failure(EnumerateFillError), queries;
        }
        gpus := e.present;
      }
      return Success(gpus), queries;
    }

    /**
     * `listQueueFamilies`: one record per reported family, built in order with a running
     * family index; it is exactly the classification `Classify` describes.
     */
    method ListQueueFamilies(gpu: Gpu) returns (familiesTranslated: seq<QueueFamily>)
      ensures familiesTranslated == Classify(gpu.families)
    {
      var families := gpu.families;
      familiesTranslated := [];
      var familyIndex := 0;
      while familyIndex < |families|
        invariant 0 <= familyIndex <= |families|
        invariant |familiesTranslated| == familyIndex
        invariant forall k :: 0 <= k < familyIndex ==> familiesTranslated[k] == Translate(families[k], k)
      {
        var f := families[familyIndex];
        var family := DefaultQueueFamily();
        family := family.(index := familyIndex);
        family := family.(canDoGraphics := f.queueFlags & QueueGraphicsBit != 0);
        family := family.(canDoComputation := f.queueFlags & QueueComputeBit != 0);
        family := family.(canDoTransfers := f.queueFlags & QueueTransferBit != 0);
        family := family.(canDoSparseBinding := f.queueFlags & QueueSparseBindingBit != 0);
        family := family.(canDoPresentation := f.surfaceSupport);
        familiesTranslated := familiesTranslated + [family];
        familyIndex := familyIndex + 1;
      }
    }

    /**
     * The family loop of the constructor for one adapter: each graphics family is offered to the
     * two members, which take it only while they are -1. The members end as `ScanFamilies`
     * says, starting from whatever the earlier adapters left in them.
     */
    method ScanQueueFamilies(queueFamilies: seq<QueueFamily>)
      modifies this`gfxQueueFamily, this`preQueueFamily
      ensures Members() == ScanFamilies(old(Members()), queueFamilies)
    {
      var i := 0;
      while i < |queueFamilies|
        invariant 0 <= i <= |queueFamilies|
        invariant ScanFamilies(Members(), queueFamilies[i..]) == ScanFamilies(old(Members()), queueFamilies)
      {
        var family := queueFamilies[i];
        assert queueFamilies[i..][1..] == queueFamilies[i + 1..];
        if family.canDoGraphics {
          if gfxQueueFamily < 0 {
            gfxQueueFamily := family.index;
          }
          if family.canDoPresentation {
            if preQueueFamily < 0 {
              preQueueFamily := family.index;
            }
          }
        }
        i := i + 1;
      }
    }

    /**
     * The body of the adapter loop for one adapter: scan its families into the members, then
     * reject it for a missing graphics family, else for a missing presentation family, else ask
     * the rule. `askedRule` says whether the rule was called.
     */
    method CheckGpu(gpu: Gpu, rule: SelectionRule) returns (verdict: Verdict, askedRule: bool)
      modifies this`gfxQueueFamily, this`preQueueFamily
      ensures Members() == AdapterScan(old(Members()), gpu)
      ensures verdict == Judge(Members(), rule, gpu.properties)
      ensures askedRule <==> ConsultsRule(verdict)
    {
      var queueFamilies := ListQueueFamilies(gpu);
      ScanQueueFamilies(queueFamilies);
      askedRule := false;
      if gfxQueueFamily < 0 {
        verdict := NoGraphicsQueue;
      } else if preQueueFamily < 0 {
        verdict := NoPresentationQueue;
      } else {
        askedRule := true;
        verdict := if IsSuitable(rule, gpu.properties) then Selected else RuleRejected;
      }
    }

    /**
     * The adapter loop of the constructor: check each adapter in turn and stop at the first one
     * the rule accepts. The selected index, the members and the verdicts are those of
     * `NegotiateFrom` from the members' values on entry; `consulted` lists, in increasing order,
     * the adapters whose rule was asked, which are exactly those whose verdict involves the rule.
     */
    method SelectGpu(gpus: seq<Gpu>, rule: SelectionRule)
      returns (gpuSelected: int, verdicts: seq<Verdict>, consulted: seq<nat>)
      modifies this`gfxQueueFamily, this`preQueueFamily
      ensures var n := NegotiateFrom(gpus, rule, 0, old(Members()));
              gpuSelected == n.selected && Members() == n.candidates && verdicts == n.verdicts
      ensures consulted == RuleCalls(verdicts)
    {
      gpuSelected := -1;
      verdicts := [];
      consulted := [];
      var i := 0;
      while i < |gpus|
        invariant 0 <= i <= |gpus| && |verdicts| == i
        invariant NegotiateFrom(gpus, rule, 0, old(Members())) == Resume(verdicts, NegotiateFrom(gpus, rule, i, Members()))
        invariant consulted == RuleCalls(verdicts)
      {
        ghost var before := Members();
        var verdict, askedRule := CheckGpu(gpus[i], rule);
        if askedRule {
          consulted := consulted + [i];
        }
        NegotiateFromUnfold(gpus, rule, i, before);
        ResumeStep(verdicts, verdict, NegotiateFrom(gpus, rule, i + 1, Members()));
        RuleCallsAppend(verdicts, verdict);
        verdicts := verdicts + [verdict];
        if verdict == Selected {
          gpuSelected := i;
          break;
        }
        i := i + 1;
      }
    }

    /** The window's destructor, run when the constructor throws and `window` is dropped. */
    method DropWindow() returns (events: seq<NativeEvent>)
      requires window != null && window.hasWindow && window.hasContext
      ensures events == WindowDown
    {
      var ws := window.Destroy();
      events := Lift(ws);
    }

    /**
     * The body of `Instance(app_name, deviceSelectionRule)`, run on the members as their
     * declarations initialise them. The steps, each only if the one before it succeeded: open
     * the window, ask for the extensions it needs, create the instance with them, create the
     * surface, enumerate adapters, select one. A failing step raises its error; the window is
     * then dropped like every member of an object whose constructor throws, but the instance
     * handle is released only when no adapter is selected, so a surface or enumeration failure
     * leaves it alive. On success `outcome` holds `gpuSelected`, the members hold the selected
     * adapter's queue families, and the window, the instance and the surface are alive.
     */
    method Initialize(appName: string, native: Native, rule: SelectionRule)
      returns (outcome: Result<int, Error>, events: seq<NativeEvent>)
      requires window == null && !hasInstance && !hasSurface && enabledExtensions == []
      requires gfxQueueFamily == -1 && preQueueFamily == -1
      modifies this
      ensures !native.window.windowCreated ==>
                outcome == Failure(SdlError(Sdl.CreateWindowError(native.window.sdlError))) && events == []
      ensures native.window.windowCreated && !native.window.contextCreated ==>
                && outcome == Failure(SdlError(Sdl.CreateContextError(native.window.sdlError)))
                && events == [Windowing(Sdl.WindowCreated), Windowing(Sdl.WindowDestroyed)]
      ensures WindowOpens(native) && !ExtensionsKnown(native.extensions) ==>
                outcome == Failure(ExtensionsError(native.extensions.sdlError)) && events == WindowUp + WindowDown
      ensures WindowOpens(native) && ExtensionsKnown(native.extensions) && native.createInstanceResult != 0 ==>
                outcome == Failure(CreateInstanceError) && events == WindowUp + WindowDown
      ensures InstanceCreates(native) ==> hasInstance && enabledExtensions == native.extensions.names
      ensures InstanceCreates(native) && !native.surfaceCreated ==>
                outcome == Failure(CreateSurfaceError) && events == WindowUp + [InstanceCreated] + WindowDown
      ensures InstanceCreates(native) && native.surfaceCreated && !Enumerates(native.devices) ==>
                && outcome == Failure(if native.devices.countResult != 0 then EnumerateError else EnumerateFillError)
                && events == WindowUp + [InstanceCreated, SurfaceCreated] + WindowDown
      ensures DevicesListed(native) ==>
                var n := Negotiate(native.devices.present, rule);
                && Members() == n.candidates
                && (n.selected < 0 ==>
                      && outcome == Failure(NoSuitableGpuError)
                      && events == WindowUp + [InstanceCreated, SurfaceCreated, InstanceDestroyed] + WindowDown)
                && (n.selected >= 0 ==>
                      && outcome == Success(n.selected)
                      && events == WindowUp + [InstanceCreated, SurfaceCreated]
                      && window != null && window.hasWindow && window.hasContext && hasSurface)
    {
      var created, windowLog := Sdl.NewWindow(appName, DefaultWindowWidth, DefaultWindowHeight, native.window);
      events := Lift(windowLog);
      if created.Failure? {
        return Failure(SdlError(created.error)), events;
      }
      window := created.value;

      var extensions := ListNeededSdlExtensions(native.extensions);
      if extensions.Failure? {
        var down := DropWindow();
        return Failure(extensions.error), events + down;
      }

      if native.createInstanceResult != 0 {
        var down := DropWindow();
        return Failure(CreateInstanceError), events + down;
      }
      hasInstance := true;
      enabledExtensions := extensions.value;
      events := events + [InstanceCreated];

      if !native.surfaceCreated {
        var down := DropWindow();
        return Failure(CreateSurfaceError), events + down;
      }
      hasSurface := true;
      events := events + [SurfaceCreated];

      var gpus, _ := ListPhysicalDevices(native.devices);
      if gpus.Failure? {
        var down := DropWindow();
        return Failure(gpus.error), events + down;
      }

      var gpuSelected, _, _ := SelectGpu(gpus.value, rule);
      if gpuSelected < 0 {
        events := events + [InstanceDestroyed];
        var down := DropWindow();
        return Failure(NoSuitableGpuError), events + down;
      }
      return Success(gpuSelected), events;
    }

    /** `~Instance()`: releases the instance handle if there is one; the members are then
        destroyed, the window last. The surface is never released. */
    method Destroy() returns (events: seq<NativeEvent>)
      requires window != null ==> window.hasWindow && window.hasContext
      ensures events == (if hasInstance then [InstanceDestroyed] else []) + (if window != null then WindowDown else [])
    {
      events := [];
      if hasInstance {
        events := events + [InstanceDestroyed];
      }
      if window != null {
        var down := DropWindow();
        events := events + down;
      }
    }
  }

  /** The positions, in increasing order, of the verdicts for which the rule was called. */
  function RuleCalls(verdicts: seq<Verdict>): seq<nat>
    decreases |verdicts|
  {
    if verdicts == [] then []
    else
      var last := |verdicts| - 1;
      RuleCalls(verdicts[..last]) + (if ConsultsRule(verdicts[last]) then [last] else [])
  }

  lemma RuleCallsAppend(verdicts: seq<Verdict>, v: Verdict)
    ensures RuleCalls(verdicts + [v]) == RuleCalls(verdicts) + (if ConsultsRule(v) then [|verdicts|] else [])
  {
  }

  /** The rule is called for exactly the adapters whose verdict involves it, in order, each once. */
  lemma {:induction false} RuleCallsExactly(verdicts: seq<Verdict>)
    ensures forall j :: j in RuleCalls(verdicts) <==> 0 <= j < |verdicts| && ConsultsRule(verdicts[j])
    ensures forall k, l :: 0 <= k < l < |RuleCalls(verdicts)| ==> RuleCalls(verdicts)[k] < RuleCalls(verdicts)[l]
    decreases |verdicts|
  {
    if verdicts != [] {
      var last := |verdicts| - 1;
      var front := verdicts[..last];
      RuleCallsExactly(front);
      assert forall j :: 0 <= j < last ==> front[j] == verdicts[j];
      var calls := RuleCalls(front);
      forall k | 0 <= k < |calls| ensures calls[k] < last {
        assert calls[k] in calls;
      }
    }
  }

  /** A loop outcome `rest` from some adapter on, preceded by the verdicts already given. */
  function Resume(given: seq<Verdict>, rest: Negotiation): Negotiation {
    rest.(verdicts := given + rest.verdicts)
  }

  lemma ResumeStep(given: seq<Verdict>, v: Verdict, rest: Negotiation)
    ensures Resume(given, rest.(verdicts := [v] + rest.verdicts)) == Resume(given + [v], rest)
  {
  }

  predicate WindowOpens(native: Native) {
    native.window.windowCreated && native.window.contextCreated
  }

  predicate ExtensionsKnown(q: ExtensionQuery) {
    q.countOk && q.namesOk
  }

  predicate InstanceCreates(native: Native) {
    WindowOpens(native) && ExtensionsKnown(native.extensions) && native.createInstanceResult == 0
  }

  /** Both enumeration queries that are made succeed. */
  predicate Enumerates(e: DeviceEnumeration) {
    e.countResult == 0 && (e.present != [] ==> e.fillResult == 0)
  }

  /** Every step before the selection succeeds. */
  predicate DevicesListed(native: Native) {
    InstanceCreates(native) && native.surfaceCreated && Enumerates(native.devices)
  }

  /** Once every step before the selection has succeeded, construction succeeds exactly when
      some adapter passes its checks and is accepted by the rule. */
  lemma ConstructionSucceedsIffSomeAdapterPasses(native: Native, rule: SelectionRule)
    requires DevicesListed(native)
    ensures var gpus := native.devices.present;
            Negotiate(gpus, rule).selected >= 0 <==> exists j :: 0 <= j < |gpus| && Accepts(gpus, rule, j)
  {
    FirstAcceptanceWins(native.devices.present, rule);
  }

  /**
   * `Instance(app_name, deviceSelectionRule)`, with `AnythingIsFine` when no rule is given. On
   * success it gives the new instance and the value `gpuSelected` ended with; either way it
   * gives the log of what was created and released.
   */
  method NewInstance(appName: string, native: Native, rule: SelectionRule := AnythingIsFine)
    returns (r: Result<Instance, Error>, gpuSelected: int, events: seq<NativeEvent>)
    ensures r.Success? <==> DevicesListed(native) && Negotiate(native.devices.present, rule).selected >= 0
    ensures r.Success? ==>
              var n := Negotiate(native.devices.present, rule);
              && fresh(r.value)
              && gpuSelected == n.selected
              && r.value.Members() == n.candidates
              && r.value.hasInstance && r.value.hasSurface
              && r.value.window != null && r.value.window.hasWindow && r.value.window.hasContext
              && r.value.enabledExtensions == native.extensions.names
              && events == WindowUp + [InstanceCreated, SurfaceCreated]
    ensures !native.window.windowCreated ==> r == Failure(SdlError(Sdl.CreateWindowError(native.window.sdlError)))
    ensures native.window.windowCreated && !native.window.contextCreated ==>
              r == Failure(SdlError(Sdl.CreateContextError(native.window.sdlError)))
    ensures WindowOpens(native) && !ExtensionsKnown(native.extensions) ==>
              r == Failure(ExtensionsError(native.extensions.sdlError))
    ensures WindowOpens(native) && ExtensionsKnown(native.extensions) && native.createInstanceResult != 0 ==>
              r == Failure(CreateInstanceError)
    ensures InstanceCreates(native) && !native.surfaceCreated ==> r == Failure(CreateSurfaceError)
    ensures InstanceCreates(native) && native.surfaceCreated && !Enumerates(native.devices) ==>
              r == Failure(if native.devices.countResult != 0 then EnumerateError else EnumerateFillError)
    ensures DevicesListed(native) && Negotiate(native.devices.present, rule).selected < 0 ==>
              r == Failure(NoSuitableGpuError)
    ensures r.Failure? ==> gpuSelected == -1
    ensures r.Failure? ==> OpenWindows(events) == 0 && OpenContexts(events) == 0
    ensures r.Failure? ==>
              (OpenInstances(events) == 1 <==> InstanceCreates(native) && !DevicesListed(native))
  {
    var inst := new Instance.Blank();
    var outcome;
    outcome, events := inst.Initialize(appName, native, rule);
    if outcome.Failure? {
      return Failure(outcome.error), -1, events;
    }
    return Success(inst), outcome.value, events;
  }

  /**
   * The whole life of an instance: construct it and, if that succeeds, destroy it again. No
   * window, GL context or instance handle is left behind except the instance handle a surface or
   * enumeration failure leaks; the surface of a constructed instance is never released.
   */
  method ConstructAndDestroy(appName: string, native: Native, rule: SelectionRule := AnythingIsFine)
    returns (constructed: bool, events: seq<NativeEvent>)
    ensures constructed <==> DevicesListed(native) && Negotiate(native.devices.present, rule).selected >= 0
    ensures OpenWindows(events) == 0 && OpenContexts(events) == 0
    ensures constructed ==> OpenInstances(events) == 0 && OpenSurfaces(events) == 1
    ensures !constructed ==>
              (OpenInstances(events) == 1 <==> InstanceCreates(native) && !DevicesListed(native))
  {
    var r, _, log := NewInstance(appName, native, rule);
    events := log;
    constructed := r.Success?;
    if r.Success? {
      var down := r.value.Destroy();
      events := events + down;
    }
  }
}
