/**
 * The SDL wrapper classes: rectangles, pointer wrappers (surface, texture), the GL window and the
 * timer's rescheduling arithmetic. Every call into SDL is replaced by its answer, passed in as a
 * parameter, or by an entry in a log of the resource-affecting calls made.
 */
module SdlWrapper {
  import opened Wrappers
  import opened CTypes

  /** `SDL::Error`: the exception every wrapper throws, carrying its reason text. */
  datatype Error = Error(reason: string)

  /** An address, standing for a non-null pointer into SDL's own memory. */
  datatype Address = Address(a: nat)

  // ----------------------------------------------------------------------------------------------
  // Rect

  /** `SDL::Rect`: a rectangle whose four fields are assigned in place. */
  class Rect {
    var x: int32
    var y: int32
    var w: int32
    var h: int32

    /** `Rect()`: everything zero. */
    constructor ()
      ensures x == 0 && y == 0 && w == 0 && h == 0
    {
      x, y, w, h := 0, 0, 0, 0;
    }

    /** `Rect(x, y, w, h)`: position and size exactly as given. */
    constructor FromXYWH(x0: int32, y0: int32, w0: int32, h0: int32)
      ensures x == x0 && y == y0 && w == w0 && h == h0
    {
      x, y, w, h := x0, y0, w0, h0;
    }

    /** `SetXYWH`: overwrites all four fields and returns the same rectangle, for chaining. */
    method SetXYWH(x0: int32, y0: int32, w0: int32, h0: int32) returns (self: Rect)
      modifies this
      ensures x == x0 && y == y0 && w == w0 && h == h0
      ensures self == this
    {
      x, y, w, h := x0, y0, w0, h0;
      self := this;
    }
  }

  // ----------------------------------------------------------------------------------------------
  // PtrWrapper and its subclasses

  /**
   * `PtrWrapper<T>`: an object holding a possibly-null pointer to an SDL object. The pointee is
   * modelled by its value: `None` is the null pointer.
   */
  class PtrWrapper<T> {
    var wrapped: Option<T>

    /** The wrapped pointer starts out null. */
    constructor ()
      ensures wrapped == None
      ensures !Ok()
    {
      wrapped := None;
    }

    /** `Ok()`: whether the wrapped object exists. */
    predicate Ok()
      reads this
    {
      wrapped != None
    }

    /** `GetWrapped()`: the wrapped pointer, null when the wrapper is invalid. */
    function GetWrapped(): (p: Option<T>)
      reads this
      ensures p.Some? <==> Ok()
      ensures p == wrapped
    {
      wrapped
    }
  }

  /** The fields of an `SDL_Surface` that the surface getters read. */
  datatype SurfaceData = SurfaceData(
    format: Option<Address>,
    pixels: Option<Address>,
    w: int32,
    h: int32,
    pitch: int32)

  /** `SDL::Surface`, a `PtrWrapper<SDL_Surface>`. */
  type Surface = PtrWrapper<SurfaceData>

  const DimensionsError := Error("SDL::Surface::Surface(): Surface dimensions must be >= 0")

  function CreateSurfaceError(sdlError: string): Error {
    Error("SDL::Surface::Surface(): SDL_CreateRGBSurfaceWithFormat() failed: " + sdlError)
  }

  /**
   * The `Surface(width, height, depth, format)` constructor. `created` is what
   * `SDL_CreateRGBSurfaceWithFormat` returns and `sdlError` the text of `SDL_GetError`;
   * `allocationAttempted` tells whether SDL was asked for the surface at all.
   */
  method NewSurface(width: int32, height: int32, depth: int32, format: uint32,
                    created: Option<SurfaceData>, sdlError: string)
    returns (r: Result<Surface, Error>, allocationAttempted: bool)
    ensures (width < 0 || height < 0 || depth < 0) <==> !allocationAttempted
    ensures !allocationAttempted ==> r == Failure(DimensionsError)
    ensures allocationAttempted && created.None? ==> r == Failure(CreateSurfaceError(sdlError))
    ensures allocationAttempted && created.Some? ==>
              r.Success? && fresh(r.value) && r.value.wrapped == created && r.value.Ok()
  {
    if width < 0 || height < 0 || depth < 0 {
      return Failure(DimensionsError), false;
    }
    allocationAttempted := true;
    var s := new PtrWrapper<SurfaceData>();
    s.wrapped := created;
    if s.wrapped.None? {
      return Failure(CreateSurfaceError(sdlError)), allocationAttempted;
    }
    r := Success(s);
  }

  /** `~Surface()`: frees the surface if there is one; the field itself is left as it is. */
  method DestroySurface(s: Surface) returns (freed: bool)
    ensures freed <==> s.Ok()
  {
    freed := s.wrapped.Some?;
  }

  /** `GetFormat()`: null for an invalid surface. */
  function GetFormat(s: Surface): (p: Option<Address>)
    reads s
    ensures !s.Ok() ==> p == None
    ensures s.Ok() ==> p == s.wrapped.value.format
  {
    if s.wrapped.Some? then s.wrapped.value.format else None
  }

  /** `GetPixels()`: null for an invalid surface. */
  function GetPixels(s: Surface): (p: Option<Address>)
    reads s
    ensures !s.Ok() ==> p == None
    ensures s.Ok() ==> p == s.wrapped.value.pixels
  {
    if s.wrapped.Some? then s.wrapped.value.pixels else None
  }

  /** `GetWidth()`: zero for an invalid surface. */
  function GetWidth(s: Surface): (n: int32)
    reads s
    ensures !s.Ok() ==> n == 0
    ensures s.Ok() ==> n == s.wrapped.value.w
  {
    if s.wrapped.Some? then s.wrapped.value.w else 0
  }

  /** `GetHeight()`: zero for an invalid surface. */
  function GetHeight(s: Surface): (n: int32)
    reads s
    ensures !s.Ok() ==> n == 0
    ensures s.Ok() ==> n == s.wrapped.value.h
  {
    if s.wrapped.Some? then s.wrapped.value.h else 0
  }

  /** `GetPitch()`: zero for an invalid surface. */
  function GetPitch(s: Surface): (n: int32)
    reads s
    ensures !s.Ok() ==> n == 0
    ensures s.Ok() ==> n == s.wrapped.value.pitch
  {
    if s.wrapped.Some? then s.wrapped.value.pitch else 0
  }

  /** Every getter of a surface whose creation was refused reads as zero or null. */
  lemma RefusedSurfaceReadsAsEmpty(s: Surface)
    requires s.wrapped == None
    ensures GetFormat(s) == None && GetPixels(s) == None
    ensures GetWidth(s) == 0 && GetHeight(s) == 0 && GetPitch(s) == 0
  {
  }

  /** The SDL texture a `Texture` wraps; its contents are never inspected. */
  datatype TextureData = TextureData(id: nat)

  /** `SDL::Texture`, a `PtrWrapper<SDL_Texture>`. */
  type Texture = PtrWrapper<TextureData>

  /** `Texture(renderer, src)`: wraps whatever `SDL_CreateTextureFromSurface` returned (`created`),
      null included; this constructor never throws. */
  method NewTexture(created: Option<TextureData>) returns (t: Texture)
    ensures fresh(t) && t.wrapped == created
  {
    t := new PtrWrapper<TextureData>();
    t.wrapped := created;
  }

  /** `~Texture()`: destroys the texture only if there is one, and leaves the wrapper null. */
  method DestroyTexture(t: Texture) returns (released: bool)
    modifies t
    ensures released <==> old(t.wrapped).Some?
    ensures t.wrapped == None && !t.Ok()
  {
    released := false;
    if t.wrapped.Some? {
      released := true;
      t.wrapped := None;
    }
  }

  // ----------------------------------------------------------------------------------------------
  // Window

  /** The window resources SDL hands out or takes back, in the order it happens. */
  datatype WindowEvent = WindowCreated | ContextCreated | ContextDeleted | WindowDestroyed

  /** How many windows a log of events leaves alive. */
  function LiveWindows(log: seq<WindowEvent>): int {
    (multiset(log)[WindowCreated] as int) - multiset(log)[WindowDestroyed]
  }

  /** How many GL contexts a log of events leaves alive. */
  function LiveContexts(log: seq<WindowEvent>): int {
    (multiset(log)[ContextCreated] as int) - multiset(log)[ContextDeleted]
  }

  /** The answers SDL gives while a window is being created. */
  datatype WindowNative = WindowNative(windowCreated: bool, contextCreated: bool, sdlError: string)

  function CreateWindowError(sdlError: string): Error {
    Error("SDL::Window::Window(): SDL_CreateWindow() failed: " + sdlError)
  }

  function CreateContextError(sdlError: string): Error {
    Error("SDL::Window::Window(): SDL_GL_CreateContext() failed: " + sdlError)
  }

  /** `SDL::Window`: an SDL window with its GL context; each field says whether the handle is
      non-null. */
  class Window {
    var hasWindow: bool
    var hasContext: bool

    constructor Holding(wnd: bool, ctx: bool)
      ensures hasWindow == wnd && hasContext == ctx
    {
      hasWindow, hasContext := wnd, ctx;
    }

    /** `~Window()`: deletes the GL context, then destroys the window, each only if it exists. */
    method Destroy() returns (log: seq<WindowEvent>)
      ensures log == (if hasContext then [ContextDeleted] else []) +
                     (if hasWindow then [WindowDestroyed] else [])
    {
      log := [];
      if hasContext {
        log := log + [ContextDeleted];
      }
      if hasWindow {
        log := log + [WindowDestroyed];
      }
    }
  }

  /**
   * `Window(title, width, height)`. The window is created first; a GL context is then created for
   * it, and if that fails the window is destroyed before the error is raised, so a failed
   * construction leaves nothing alive. `log` records what SDL created and released.
   */
  method NewWindow(title: string, width: int32, height: int32, native: WindowNative)
    returns (r: Result<Window, Error>, log: seq<WindowEvent>)
    ensures !native.windowCreated ==>
              r == Failure(CreateWindowError(native.sdlError)) && log == []
    ensures native.windowCreated && !native.contextCreated ==>
              r == Failure(CreateContextError(native.sdlError)) &&
              log == [WindowCreated, WindowDestroyed]
    ensures native.windowCreated && native.contextCreated ==>
              r.Success? && fresh(r.value) && r.value.hasWindow && r.value.hasContext &&
              log == [WindowCreated, ContextCreated]
    ensures r.Failure? ==> LiveWindows(log) == 0 && LiveContexts(log) == 0
    ensures r.Success? ==> LiveWindows(log) == 1 && LiveContexts(log) == 1
  {
    log := [];
    if !native.windowCreated {
      return Failure(CreateWindowError(native.sdlError)), log;
    }
    log := log + [WindowCreated];
    if !native.contextCreated {
      log := log + [WindowDestroyed];
      return Failure(CreateContextError(native.sdlError)), log;
    }
    log := log + [ContextCreated];
    var w := new Window.Holding(true, true);
    r := Success(w);
  }

  // ----------------------------------------------------------------------------------------------
  // Timer

  /** `Timer::Type`. */
  datatype TimerType = OneShot | Repeated

  /** The underlying values of the enumerators: `kOneShot = 0`, `kRepeated = 1`. */
  function TimerTypeValue(t: TimerType): (v: int)
    ensures 0 <= v <= 1
    ensures v == 0 <==> t == OneShot
  {
    match t
    case OneShot => 0
    case Repeated => 1
  }

  function TimerTypeOfValue(v: int): (t: Option<TimerType>)
    ensures t.Some? <==> (v == 0 || v == 1)
  {
    if v == 0 then Some(OneShot) else if v == 1 then Some(Repeated) else None
  }

  lemma TimerTypeValueRoundTrip(t: TimerType, v: int)
    ensures TimerTypeOfValue(TimerTypeValue(t)) == Some(t)
    ensures TimerTypeOfValue(v).Some? ==> TimerTypeValue(TimerTypeOfValue(v).value) == v
  {
  }

  /** The delay of a repeated timer's callback, `int32_t delay = timePassed - interval`
      computed in `uint32_t` and converted to `int32_t`. */
  function Delay(interval: uint32, timePassed: uint32): int32 {
    ToInt32(ToUint32(timePassed - interval))
  }

  /** The subtraction `int32_t(interval) - delay` is performed in `int32_t`; it must not overflow. */
  predicate RescheduleDefined(kind: TimerType, interval: uint32, timePassed: uint32) {
    kind == Repeated ==> InInt32Range(ToInt32(interval) - Delay(interval, timePassed))
  }

  /**
   * The value `CallPayload` returns, i.e. the next interval SDL is to wait: zero (stop) for a
   * one-shot timer; for a repeated one the interval shortened by the delay,
   * `interval - (timePassed - interval)` taken modulo 2^32.
   */
  function NextInterval(kind: TimerType, interval: uint32, timePassed: uint32): (next: uint32)
    requires RescheduleDefined(kind, interval, timePassed)
    ensures kind == OneShot ==> next == 0
    ensures kind == Repeated ==> next == (2 * interval - timePassed) % TwoTo32
    ensures kind == Repeated && timePassed == interval ==> next == interval
  {
    if kind == OneShot then 0
    else
      var delay := Delay(interval, timePassed);
      var next := ToUint32(ToInt32(interval) - delay);
      DelayCongruent(interval, timePassed);
      CongruentLaws(ToInt32(interval), interval, delay, timePassed - interval);
      ToUint32Congruent(ToInt32(interval) - delay, 2 * interval - timePassed);
      next
  }

  /** The delay is the difference `timePassed - interval` up to a multiple of 2^32. */
  lemma DelayCongruent(interval: uint32, timePassed: uint32)
    ensures Congruent(Delay(interval, timePassed), timePassed - interval)
  {
  }

  /** `SDL::Timer`: its type and interval are fixed at construction; `payloadRuns` counts the
      invocations of the payload, which SDL makes on its timer thread. */
  class Timer {
    const kind: TimerType
    const interval: uint32
    const timerId: int
    var payloadRuns: nat

    /** `Timer(type, interval, payload)`: registers with SDL, which answers with `sdlTimerId`. */
    constructor (kind0: TimerType, interval0: uint32, sdlTimerId: int)
      ensures kind == kind0 && interval == interval0 && timerId == sdlTimerId && payloadRuns == 0
    {
      kind, interval, timerId := kind0, interval0, sdlTimerId;
      payloadRuns := 0;
    }

    /** `CallPayload(timePassed, this)`: runs the payload once, then tells SDL how long to wait
        before the next call (zero: never again). */
    method CallPayload(timePassed: uint32) returns (next: uint32)
      requires RescheduleDefined(kind, interval, timePassed)
      modifies this`payloadRuns
      ensures payloadRuns == old(payloadRuns) + 1
      ensures next == NextInterval(kind, interval, timePassed)
    {
      payloadRuns := payloadRuns + 1;
      if kind == OneShot {
        return 0;
      }
      var delay: int32 := Delay(interval, timePassed);
      next := ToUint32(ToInt32(interval) - delay);
    }
  }
}
