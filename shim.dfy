/** The interposition shim for Fieldrunners as one stateful object.

    The C shim keeps its state in process-wide globals and in one
    function-local `static real_func` per interceptor; here they are the
    fields of class `FrFix`. Every intercepted entry point is a method.
    What a method hands on (to ALSA, GL, GLUT or to the game's own
    callbacks) is appended to the ghost `trace`, so that contracts can say
    exactly what reaches each side. Results of library calls the shim only
    reads (`glutGet`, `snd_pcm_avail_delay`, the real calls' return codes)
    are inputs of the methods. */
module Shim {
  import Letterbox

  /** An opaque data pointer the shim passes along untouched. */
  type Addr = nat

  /** `unsigned char`, the type of GLUT's keyboard key. */
  type UChar = k: int | 0 <= k < 256

  /** The shim's own functions, which it installs in place of the game's. */
  datatype ShimFn =
    | FakeCallback
    | HandleReshape
    | FakedKbfunc
    | FakedMousefunc
    | FakedPmotionfunc
    | FakedMotionfunc
    | FakedSpecialup

  /** A function pointer: NULL, an address in a library or in the game, or
      one of the shim's own functions. */
  datatype Ptr = Null | Native(addr: nat) | Own(fn: ShimFn)

  /** The symbols the shim looks up with `dlsym(RTLD_NEXT, ...)`, one per
      cached slot. `GlViewport` is the slot of `handle_reshape`. */
  datatype Sym =
    | SndPcmOpen
    | SndAsyncAddPcmHandler
    | GlViewport
    | GlutReshapeFunc
    | GlutKeyboardFunc
    | GlutMouseFunc
    | GlutPassiveMotionFunc
    | GlutMotionFunc
    | GlutSpecialUpFunc

  const AllSyms: set<Sym> := {
    SndPcmOpen, SndAsyncAddPcmHandler, GlViewport, GlutReshapeFunc, GlutKeyboardFunc,
    GlutMouseFunc, GlutPassiveMotionFunc, GlutMotionFunc, GlutSpecialUpFunc
  }

  /** Every symbol is one of the nine slots. */
  lemma EverySym(s: Sym)
    ensures s in AllSyms
  {
    match s
    case SndPcmOpen =>
    case SndAsyncAddPcmHandler =>
    case GlViewport =>
    case GlutReshapeFunc =>
    case GlutKeyboardFunc =>
    case GlutMouseFunc =>
    case GlutPassiveMotionFunc =>
    case GlutMotionFunc =>
    case GlutSpecialUpFunc =>
  }

  /** The device every `snd_pcm_open` is redirected to. */
  const DefaultDevice: string := "default"

  /** Notifications are passed to the game only while ALSA's delay is below this. */
  const DelayThreshold: int := 1024

  /** The key that toggles fullscreen. */
  const KeyF: int := 'f' as int

  /** GLUT_KEY_SHIFT_L .. GLUT_KEY_ALT_R: the modifier releases that crash the game. */
  const ModifierFirst: int := 112
  const ModifierLast: int := 117

  /** The game's logical resolution. */
  const LogicalWidth: int := 1280
  const LogicalHeight: int := 720

  /** The trampoline the shim registers in place of the game's handler when
      the game calls the registration function `s`. */
  function Trampoline(s: Sym): (r: Ptr)
    ensures !r.Native?
    ensures r != Null <==> s != Sym.SndPcmOpen && s != Sym.GlViewport
  {
    match s
    case SndAsyncAddPcmHandler => Own(FakeCallback)
    case GlutReshapeFunc => Own(HandleReshape)
    case GlutKeyboardFunc => Own(FakedKbfunc)
    case GlutMouseFunc => Own(FakedMousefunc)
    case GlutPassiveMotionFunc => Own(FakedPmotionfunc)
    case GlutMotionFunc => Own(FakedMotionfunc)
    case GlutSpecialUpFunc => Own(FakedSpecialup)
    case _ => Null
  }

  /** A coordinate passed to `glutWarpPointer`: a viewport size as it is,
      or a logical coordinate divided back by the (float) pointer scale. */
  datatype WarpArg = Exact(v: int) | Unscaled(v: int)

  /** One call the shim makes on behalf of the game, with its arguments. */
  datatype Event =
    | PcmOpen(target: Ptr, pcm: Addr, name: string, stream: int, mode: int)
    | AddPcmHandler(target: Ptr, handler: Addr, pcm: Addr, callback: Ptr, privateData: Addr)
    | HandlerGetPcm(ahandler: Addr, pcm: Addr)
    | AvailDelay(pcm: Addr, avail: int, delay: int)
    | GameAudio(callback: Ptr, ahandler: Addr)
    | SetViewport(target: Ptr, x: int, y: int, width: int, height: int)
    | Register(sym: Sym, target: Ptr, installed: Ptr)
    | ReshapeWindow(width: int, height: int)
    | FullScreen
    | WarpPointer(warpX: WarpArg, warpY: WarpArg)
    | GameKey(callback: Ptr, key: int, x: int, y: int)
    | GameSpecialUp(callback: Ptr, key: int, x: int, y: int)
    | GameMouse(callback: Ptr, button: int, state: int, x: int, y: int)
    | GamePassiveMotion(callback: Ptr, x: int, y: int)
    | GameMotion(callback: Ptr, x: int, y: int)

  /** The rules every forwarded call obeys, whatever the game does. */
  predicate EventOk(t: seq<Event>, i: nat)
    requires i < |t|
  {
    match t[i]
    case PcmOpen(_, _, name, _, _) => name == DefaultDevice
    case AddPcmHandler(_, _, _, callback, _) => callback == Trampoline(SndAsyncAddPcmHandler)
    case AvailDelay(pcm, _, _) => 0 < i && t[i - 1].HandlerGetPcm? && t[i - 1].pcm == pcm
    case GameAudio(_, ahandler) =>
      && 1 < i && t[i - 1].AvailDelay? && t[i - 1].delay < DelayThreshold
      && t[i - 2].HandlerGetPcm? && t[i - 2].ahandler == ahandler
    case Register(s, _, installed) => installed == Trampoline(s) && installed != Null
    case GameKey(_, key, _, _) => key != KeyF
    case GameSpecialUp(_, key, _, _) => key < ModifierFirst || key > ModifierLast
    case _ => true
  }

  /** A real `glViewport` call is allowed anywhere in a trace. */
  lemma SetViewportOk(t: seq<Event>, e: Event)
    requires e.SetViewport?
    ensures EventOk(t + [e], |t|)
  {
  }

  predicate TraceOk(t: seq<Event>) {
    forall i :: 0 <= i < |t| ==> EventOk(t, i)
  }

  /** Extending a well-behaved trace keeps it well behaved exactly when the
      new events are. */
  lemma {:induction false} TraceOkAppend(t: seq<Event>, u: seq<Event>)
    requires TraceOk(t)
    ensures TraceOk(t + u) <==> forall j :: |t| <= j < |t + u| ==> EventOk(t + u, j)
  {
    forall i | 0 <= i < |t|
      ensures EventOk(t + u, i)
    {
      assert (t + u)[i] == t[i];
      assert 0 < i ==> (t + u)[i - 1] == t[i - 1];
      assert 1 < i ==> (t + u)[i - 2] == t[i - 2];
      assert EventOk(t, i);
    }
  }

  /** What a well-behaved trace promises, rule by rule; `FrFix.Valid()` keeps
      its trace well behaved over every sequence of calls. */
  lemma {:induction false} TraceRules(t: seq<Event>)
    requires TraceOk(t)
    ensures forall i :: 0 <= i < |t| && t[i].PcmOpen? ==> t[i].name == DefaultDevice
    ensures forall i :: 0 <= i < |t| && t[i].AddPcmHandler? ==> t[i].callback == Own(FakeCallback)
    ensures forall i {:trigger t[i]} :: 0 <= i < |t| && t[i].AvailDelay? ==>
      0 < i && t[i - 1].HandlerGetPcm? && t[i - 1].pcm == t[i].pcm
    ensures forall i {:trigger t[i]} :: 0 <= i < |t| && t[i].GameAudio? ==>
      && 1 < i && t[i - 1].AvailDelay? && t[i - 1].delay < DelayThreshold
      && t[i - 2].HandlerGetPcm? && t[i - 2].ahandler == t[i].ahandler
    ensures forall i :: 0 <= i < |t| && t[i].Register? ==>
      t[i].installed == Trampoline(t[i].sym) && t[i].installed.Own?
    ensures forall i :: 0 <= i < |t| && t[i].GameKey? ==> t[i].key != KeyF
    ensures forall i :: 0 <= i < |t| && t[i].GameSpecialUp? ==>
      !(ModifierFirst <= t[i].key <= ModifierLast)
  {
    forall i {:trigger t[i]} | 0 <= i < |t|
      ensures t[i].PcmOpen? ==> t[i].name == DefaultDevice
      ensures t[i].AddPcmHandler? ==> t[i].callback == Own(FakeCallback)
      ensures t[i].AvailDelay? ==> 0 < i && t[i - 1].HandlerGetPcm? && t[i - 1].pcm == t[i].pcm
      ensures t[i].GameAudio? ==>
        && 1 < i && t[i - 1].AvailDelay? && t[i - 1].delay < DelayThreshold
        && t[i - 2].HandlerGetPcm? && t[i - 2].ahandler == t[i].ahandler
      ensures t[i].Register? ==> t[i].installed == Trampoline(t[i].sym) && t[i].installed.Own?
      ensures t[i].GameKey? ==> t[i].key != KeyF
      ensures t[i].GameSpecialUp? ==> !(ModifierFirst <= t[i].key <= ModifierLast)
    {
      assert EventOk(t, i);
    }
  }

  /** The fullscreen clamp of `mangle_mouse`: a cap only, and only when
      fullscreen; there is no lower bound. */
  function Clamp(fullscreen: bool, v: int, cap: int): (c: int)
    ensures c <= v
    ensures fullscreen ==> c <= cap
    ensures c != v <==> fullscreen && v > cap
    ensures c != v ==> c == cap
  {
    if fullscreen && v > cap then cap else v
  }

  /** The pointer warps the clamp makes, `x` first, each at most once. */
  function Warps(fullscreen: bool, actW: int, actH: int, sx: int, sy: int): (w: seq<Event>)
    ensures |w| <= 2
    ensures !fullscreen ==> w == []
    ensures |w| == (if fullscreen && sx > LogicalWidth then 1 else 0) + (if fullscreen && sy > LogicalHeight then 1 else 0)
    ensures fullscreen && sx > LogicalWidth ==> w[0] == WarpPointer(Exact(actW), Unscaled(sy))
    ensures fullscreen && sy > LogicalHeight ==>
      w[|w| - 1] == WarpPointer(Unscaled(Clamp(fullscreen, sx, LogicalWidth)), Exact(actH))
  {
    if !fullscreen then []
    else
      (if sx > LogicalWidth then [WarpPointer(Exact(actW), Unscaled(sy))] else [])
      + (if sy > LogicalHeight then [WarpPointer(Unscaled(Clamp(true, sx, LogicalWidth)), Exact(actH))] else [])
  }

  /** The window size of the last reshape, if there was one. */
  datatype Window = Unsized | Sized(w: int, h: int)

  class FrFix {
    /** `dlsym(RTLD_NEXT, name)`: fixed for the life of the process. */
    const dlsym: Sym -> Ptr

    /** The `static real_func` of each interceptor (`glvp` for `GlViewport`). */
    var cache: map<Sym, Ptr>
    /** How often each slot has called `dlsym`. */
    ghost var lookups: map<Sym, nat>

    /** The game's callbacks the shim stores: `fr_callback`, `fr_kbfunc`,
        `fr_mousefunc`, `fr_pmotionfunc`, `fr_motionfunc`, `fr_specialup`. */
    var frCallback: Ptr
    var frKbfunc: Ptr
    var frMousefunc: Ptr
    var frPmotionfunc: Ptr
    var frMotionfunc: Ptr
    var frSpecialup: Ptr

    /** The viewport of the last reshape and the fullscreen flag `fs`. */
    var actW: int
    var actH: int
    var actXoff: int
    var actYoff: int
    var fs: bool
    ghost var window: Window

    /** Every call the shim has made on the game's behalf, oldest first. */
    ghost var trace: seq<Event>

    /** Slot `s` is filled by its first lookup and then holds what `dlsym`
        gave; unless it is glutSpecialUpFunc's, a lookup that succeeded is
        never repeated. */
    ghost predicate SlotOk(s: Sym)
      reads this`cache, this`lookups
    {
      && s in cache && s in lookups
      && cache[s] == (if lookups[s] == 0 then Null else dlsym(s))
      && (s != Sym.GlutSpecialUpFunc && dlsym(s) != Null ==> lookups[s] <= 1)
    }

    ghost predicate SlotsOk()
      reads this`cache, this`lookups
    {
      forall s :: SlotOk(s)
    }

    /** The viewport is that of the last reshape (all zero before the first). */
    ghost predicate ViewportOk()
      reads this`actW, this`actH, this`actXoff, this`actYoff, this`window
    {
      match window
      case Unsized => actW == 0 && actH == 0 && actXoff == 0 && actYoff == 0
      case Sized(w, h) =>
        Letterbox.InRange(w, h) && Letterbox.Viewport(actW, actH, actXoff, actYoff) == Letterbox.Compute(w, h)
    }

    ghost predicate Valid()
      reads this
    {
      SlotsOk() && ViewportOk() && TraceOk(trace)
    }

    /** What the `if (!real_func) real_func = dlsym(...)` idiom does to slot `s`. */
    twostate predicate ResolvedOnce(s: Sym)
      reads this
    {
      && s in old(cache) && s in old(lookups)
      && cache == old(cache)[s := dlsym(s)]
      && lookups == old(lookups)[s := old(lookups[s]) + if old(cache[s]) == Null then 1 else 0]
    }

    /** What an unguarded `real_func = dlsym(...)` does to slot `s`. */
    twostate predicate LookedUp(s: Sym)
      reads this
    {
      && s in old(cache) && s in old(lookups)
      && cache == old(cache)[s := dlsym(s)]
      && lookups == old(lookups)[s := old(lookups[s]) + 1]
    }

    constructor (dlsym: Sym -> Ptr)
      ensures Valid() && this.dlsym == dlsym
      ensures forall s :: s in cache && cache[s] == Null && s in lookups && lookups[s] == 0
      ensures frCallback == frKbfunc == frMousefunc == frPmotionfunc == frMotionfunc == frSpecialup == Null
      ensures !fs && window == Unsized && trace == []
    {
      this.dlsym := dlsym;
      cache := map s | s in AllSyms :: Null;
      lookups := map s | s in AllSyms :: 0;
      frCallback, frKbfunc, frMousefunc := Null, Null, Null;
      frPmotionfunc, frMotionfunc, frSpecialup := Null, Null, Null;
      actW, actH, actXoff, actYoff := 0, 0, 0, 0;
      fs := false;
      window := Unsized;
      trace := [];
      forall s: Sym
        ensures s in AllSyms
      {
        EverySym(s);
      }
    }

    /** `real_func = dlsym(RTLD_NEXT, name)`: look `s` up and fill its slot.
        Only glutSpecialUpFunc's slot is looked up when already filled. */
    method LookUp(s: Sym) returns (target: Ptr)
      requires Valid()
      requires s == Sym.GlutSpecialUpFunc || (s in cache && cache[s] == Null)
      modifies this`cache, this`lookups
      ensures Valid() && LookedUp(s)
      ensures target == dlsym(s)
    {
      assert SlotOk(s);
      cache := cache[s := dlsym(s)];
      lookups := lookups[s := lookups[s] + 1];
      forall t | t != s
        ensures SlotOk(t)
      {
        assert old(SlotOk(t));
      }
      target := cache[s];
    }

    /** `if (!real_func) real_func = dlsym(...)`: fill slot `s` on first use
        and return the real function. */
    method Resolve(s: Sym) returns (target: Ptr)
      requires Valid()
      modifies this`cache, this`lookups
      ensures Valid() && ResolvedOnce(s)
      ensures target == dlsym(s)
    {
      assert SlotOk(s);
      if cache[s] == Null {
        target := LookUp(s);
      } else {
        target := cache[s];
      }
    }

    /** Append `e` to the trace, which stays well behaved when `e` is. */
    method Emit(e: Event)
      requires Valid() && EventOk(trace + [e], |trace|)
      modifies this`trace
      ensures Valid() && trace == old(trace) + [e]
    {
      TraceOkAppend(trace, [e]);
      trace := trace + [e];
    }

    /** `snd_pcm_open`: open "default" whatever device was asked for. */
    method SndPcmOpen(pcm: Addr, name: string, stream: int, mode: int, realResult: int) returns (r: int)
      requires Valid()
      modifies this`cache, this`lookups, this`trace
      ensures Valid() && ResolvedOnce(Sym.SndPcmOpen)
      ensures trace == old(trace) + [PcmOpen(dlsym(Sym.SndPcmOpen), pcm, DefaultDevice, stream, mode)]
      ensures r == realResult
    {
      var target := Resolve(Sym.SndPcmOpen);
      Emit(PcmOpen(target, pcm, DefaultDevice, stream, mode));
      r := realResult;
    }

    /** `fake_callback`: read avail and delay (`pcm` comes from
        `snd_async_handler_get_pcm`, `avail` and `delay` from
        `snd_pcm_avail_delay`), then wake the game only if delay < 1024. */
    method FakeCallback(ahandler: Addr, pcm: Addr, avail: int, delay: int)
      requires Valid()
      modifies this`trace
      ensures Valid()
      ensures trace == old(trace) + [HandlerGetPcm(ahandler, pcm), AvailDelay(pcm, avail, delay)]
                      + (if delay < DelayThreshold then [GameAudio(frCallback, ahandler)] else [])
    {
      Emit(HandlerGetPcm(ahandler, pcm));
      Emit(AvailDelay(pcm, avail, delay));
      if delay < DelayThreshold {
        Emit(GameAudio(frCallback, ahandler));
      }
    }

    /** `snd_async_add_pcm_handler`: keep the game's callback and register
        `fake_callback` in its place. */
    method SndAsyncAddPcmHandler(handler: Addr, pcm: Addr, callback: Ptr, privateData: Addr, realResult: int)
      returns (r: int)
      requires Valid()
      modifies this`cache, this`lookups, this`frCallback, this`trace
      ensures Valid() && ResolvedOnce(Sym.SndAsyncAddPcmHandler)
      ensures frCallback == callback
      ensures trace == old(trace) + [AddPcmHandler(dlsym(Sym.SndAsyncAddPcmHandler), handler, pcm, Own(ShimFn.FakeCallback), privateData)]
      ensures r == realResult
    {
      var target := Resolve(Sym.SndAsyncAddPcmHandler);
      frCallback := callback;
      Emit(AddPcmHandler(target, handler, pcm, Own(ShimFn.FakeCallback), privateData));
      r := realResult;
    }

    /** `glViewport` as the game sees it: does nothing at all. */
    method GlViewport(x: int, y: int, width: int, height: int)
      requires Valid()
      ensures Valid() && trace == old(trace)
      ensures Letterbox.Viewport(actW, actH, actXoff, actYoff) == old(Letterbox.Viewport(actW, actH, actXoff, actYoff))
    {
    }

    /** The arithmetic of `handle_reshape` on the globals: the defaults
        first, then the branch that clips one axis. */
    method SetLetterbox(w: int, h: int)
      requires Letterbox.InRange(w, h)
      modifies this`actW, this`actH, this`actXoff, this`actYoff, this`window
      ensures window == Sized(w, h) && ViewportOk()
      ensures Letterbox.Viewport(actW, actH, actXoff, actYoff) == Letterbox.Compute(w, h)
    {
      actW := w;
      actH := h;
      actXoff := 0;
      actYoff := 0;
      var tw := Letterbox.CDiv(h * 16, 9);
      if w < tw {
        actH := Letterbox.CDiv(w * 9, 16);
        actYoff := Letterbox.CDiv(h - actH, 2);
      } else if w > tw {
        actW := tw;
        actXoff := Letterbox.CDiv(w - actW, 2);
      }
      window := Sized(w, h);
    }

    /** `handle_reshape`: letterbox the window, set the real viewport once,
        and record whether the window fills the screen (the four `glutGet`
        results are inputs). */
    method HandleReshape(w: int, h: int, screenW: int, windowW: int, screenH: int, windowH: int)
      requires Valid() && Letterbox.InRange(w, h)
      modifies this`cache, this`lookups, this`actW, this`actH, this`actXoff, this`actYoff
      modifies this`fs, this`window, this`trace
      ensures Valid() && ResolvedOnce(Sym.GlViewport)
      ensures window == Sized(w, h)
      ensures Letterbox.Viewport(actW, actH, actXoff, actYoff) == Letterbox.Compute(w, h)
      ensures trace == old(trace) + [SetViewport(dlsym(Sym.GlViewport), actXoff, actYoff, actW, actH)]
      ensures fs == (screenW == windowW && screenH == windowH)
    {
      var glvp := Resolve(Sym.GlViewport);
      SetLetterbox(w, h);
      SetViewportOk(trace, SetViewport(glvp, actXoff, actYoff, actW, actH));
      Emit(SetViewport(glvp, actXoff, actYoff, actW, actH));
      fs := screenW == windowW && screenH == windowH;
    }

    /** `glutReshapeFunc`: the game's handler is dropped; `handle_reshape`
        is registered instead. */
    method GlutReshapeFunc(func: Ptr)
      requires Valid()
      modifies this`cache, this`lookups, this`trace
      ensures Valid() && ResolvedOnce(Sym.GlutReshapeFunc)
      ensures trace == old(trace) + [Register(Sym.GlutReshapeFunc, dlsym(Sym.GlutReshapeFunc), Own(ShimFn.HandleReshape))]
    {
      var target := Resolve(Sym.GlutReshapeFunc);
      Emit(Register(Sym.GlutReshapeFunc, target, Own(ShimFn.HandleReshape)));
    }

    /** `faked_kbfunc`: 'f' toggles fullscreen, any other key goes to the game. */
    method FakedKbfunc(key: UChar, x: int, y: int)
      requires Valid()
      modifies this`trace
      ensures Valid()
      ensures trace == old(trace) +
        if key == KeyF then (if fs then [ReshapeWindow(LogicalWidth, LogicalHeight)] else [FullScreen])
        else [GameKey(frKbfunc, key, x, y)]
    {
      if key == KeyF {
        if fs {
          Emit(ReshapeWindow(LogicalWidth, LogicalHeight));
        } else {
          Emit(FullScreen);
        }
      } else {
        Emit(GameKey(frKbfunc, key, x, y));
      }
    }

    /** `glutKeyboardFunc`: keep the game's handler, register `faked_kbfunc`. */
    method GlutKeyboardFunc(func: Ptr)
      requires Valid()
      modifies this`cache, this`lookups, this`frKbfunc, this`trace
      ensures Valid() && ResolvedOnce(Sym.GlutKeyboardFunc)
      ensures frKbfunc == func
      ensures trace == old(trace) + [Register(Sym.GlutKeyboardFunc, dlsym(Sym.GlutKeyboardFunc), Own(ShimFn.FakedKbfunc))]
    {
      var target := Resolve(Sym.GlutKeyboardFunc);
      frKbfunc := func;
      Emit(Register(Sym.GlutKeyboardFunc, target, Own(ShimFn.FakedKbfunc)));
    }

    /** The fullscreen branch of `mangle_mouse`, on coordinates `sx`, `sy`
        already moved and scaled into logical space. */
    method MangleMouse(sx: int, sy: int) returns (x: int, y: int)
      requires Valid()
      modifies this`trace
      ensures Valid()
      ensures x == Clamp(fs, sx, LogicalWidth) && y == Clamp(fs, sy, LogicalHeight)
      ensures trace == old(trace) + Warps(fs, actW, actH, sx, sy)
    {
      x, y := sx, sy;
      if fs {
        if x > LogicalWidth {
          Emit(WarpPointer(Exact(actW), Unscaled(y)));
          x := LogicalWidth;
        }
        if y > LogicalHeight {
          Emit(WarpPointer(Unscaled(x), Exact(actH)));
          y := LogicalHeight;
        }
      }
    }

    /** `faked_mousefunc`: mangle the pointer, then call the game's handler. */
    method FakedMousefunc(button: int, state: int, sx: int, sy: int)
      requires Valid()
      modifies this`trace
      ensures Valid()
      ensures trace == old(trace) + Warps(fs, actW, actH, sx, sy)
        + [GameMouse(frMousefunc, button, state, Clamp(fs, sx, LogicalWidth), Clamp(fs, sy, LogicalHeight))]
    {
      var x, y := MangleMouse(sx, sy);
      Emit(GameMouse(frMousefunc, button, state, x, y));
    }

    /** `faked_pmotionfunc`: mangle the pointer, then call the game's handler. */
    method FakedPmotionfunc(sx: int, sy: int)
      requires Valid()
      modifies this`trace
      ensures Valid()
      ensures trace == old(trace) + Warps(fs, actW, actH, sx, sy)
        + [GamePassiveMotion(frPmotionfunc, Clamp(fs, sx, LogicalWidth), Clamp(fs, sy, LogicalHeight))]
    {
      var x, y := MangleMouse(sx, sy);
      Emit(GamePassiveMotion(frPmotionfunc, x, y));
    }

    /** `faked_motionfunc`: mangle the pointer, then call the game's handler. */
    method FakedMotionfunc(sx: int, sy: int)
      requires Valid()
      modifies this`trace
      ensures Valid()
      ensures trace == old(trace) + Warps(fs, actW, actH, sx, sy)
        + [GameMotion(frMotionfunc, Clamp(fs, sx, LogicalWidth), Clamp(fs, sy, LogicalHeight))]
    {
      var x, y := MangleMouse(sx, sy);
      Emit(GameMotion(frMotionfunc, x, y));
    }

    /** `glutMouseFunc`: keep the game's handler, register `faked_mousefunc`. */
    method GlutMouseFunc(func: Ptr)
      requires Valid()
      modifies this`cache, this`lookups, this`frMousefunc, this`trace
      ensures Valid() && ResolvedOnce(Sym.GlutMouseFunc)
      ensures frMousefunc == func
      ensures trace == old(trace) + [Register(Sym.GlutMouseFunc, dlsym(Sym.GlutMouseFunc), Own(ShimFn.FakedMousefunc))]
    {
      var target := Resolve(Sym.GlutMouseFunc);
      frMousefunc := func;
      Emit(Register(Sym.GlutMouseFunc, target, Own(ShimFn.FakedMousefunc)));
    }

    /** `glutPassiveMotionFunc`: keep the game's handler, register `faked_pmotionfunc`. */
    method GlutPassiveMotionFunc(func: Ptr)
      requires Valid()
      modifies this`cache, this`lookups, this`frPmotionfunc, this`trace
      ensures Valid() && ResolvedOnce(Sym.GlutPassiveMotionFunc)
      ensures frPmotionfunc == func
      ensures trace == old(trace) + [Register(Sym.GlutPassiveMotionFunc, dlsym(Sym.GlutPassiveMotionFunc), Own(ShimFn.FakedPmotionfunc))]
    {
      var target := Resolve(Sym.GlutPassiveMotionFunc);
      frPmotionfunc := func;
      Emit(Register(Sym.GlutPassiveMotionFunc, target, Own(ShimFn.FakedPmotionfunc)));
    }

    /** `glutMotionFunc`: keep the game's handler, register `faked_motionfunc`. */
    method GlutMotionFunc(func: Ptr)
      requires Valid()
      modifies this`cache, this`lookups, this`frMotionfunc, this`trace
      ensures Valid() && ResolvedOnce(Sym.GlutMotionFunc)
      ensures frMotionfunc == func
      ensures trace == old(trace) + [Register(Sym.GlutMotionFunc, dlsym(Sym.GlutMotionFunc), Own(ShimFn.FakedMotionfunc))]
    {
      var target := Resolve(Sym.GlutMotionFunc);
      frMotionfunc := func;
      Emit(Register(Sym.GlutMotionFunc, target, Own(ShimFn.FakedMotionfunc)));
    }

    /** `faked_specialup`: drop the modifier releases 112..117. */
    method FakedSpecialup(key: int, x: int, y: int)
      requires Valid()
      modifies this`trace
      ensures Valid()
      ensures trace == old(trace) +
        if key < ModifierFirst || key > ModifierLast then [GameSpecialUp(frSpecialup, key, x, y)] else []
    {
      if key < ModifierFirst || key > ModifierLast {
        Emit(GameSpecialUp(frSpecialup, key, x, y));
      }
    }

    /** `glutSpecialUpFunc`: keep the game's handler, register
        `faked_specialup`. Unlike every other interceptor, it calls `dlsym`
        every time. */
    method GlutSpecialUpFunc(func: Ptr)
      requires Valid()
      modifies this`cache, this`lookups, this`frSpecialup, this`trace
      ensures Valid()
      ensures LookedUp(Sym.GlutSpecialUpFunc)
      ensures frSpecialup == func
      ensures trace == old(trace) + [Register(Sym.GlutSpecialUpFunc, dlsym(Sym.GlutSpecialUpFunc), Own(ShimFn.FakedSpecialup))]
    {
      var target := LookUp(Sym.GlutSpecialUpFunc);
      frSpecialup := func;
      Emit(Register(Sym.GlutSpecialUpFunc, target, Own(ShimFn.FakedSpecialup)));
    }
  }

  /** What a client observes of any shim that keeps its invariant, which is
      every shim reached from the constructor by calls to its methods: the
      forwarded calls obey the rules of `EventOk`, a guarded symbol that
      resolves is looked up at most once, and the viewport is `Compute` of
      the last reshape. */
  lemma ShimTrace(f: FrFix)
    requires f.Valid()
    ensures forall i :: 0 <= i < |f.trace| && f.trace[i].PcmOpen? ==> f.trace[i].name == DefaultDevice
    ensures forall i :: 0 <= i < |f.trace| && f.trace[i].AddPcmHandler? ==>
      f.trace[i].callback == Own(FakeCallback)
    ensures forall i {:trigger f.trace[i]} :: 0 <= i < |f.trace| && f.trace[i].GameAudio? ==>
      && 1 < i && f.trace[i - 1].AvailDelay? && f.trace[i - 1].delay < DelayThreshold
      && f.trace[i - 2].HandlerGetPcm? && f.trace[i - 2].ahandler == f.trace[i].ahandler
      && f.trace[i - 1].pcm == f.trace[i - 2].pcm
    ensures forall i :: 0 <= i < |f.trace| && f.trace[i].GameKey? ==> f.trace[i].key != KeyF
    ensures forall i :: 0 <= i < |f.trace| && f.trace[i].GameSpecialUp? ==>
      !(ModifierFirst <= f.trace[i].key <= ModifierLast)
    ensures forall s :: s != Sym.GlutSpecialUpFunc && f.dlsym(s) != Null ==> s in f.lookups && f.lookups[s] <= 1
    ensures f.window.Sized? ==>
      Letterbox.Compute(f.window.w, f.window.h) == Letterbox.Viewport(f.actW, f.actH, f.actXoff, f.actYoff)
  {
    TraceRules(f.trace);
    forall s | s != Sym.GlutSpecialUpFunc && f.dlsym(s) != Null
      ensures s in f.lookups && f.lookups[s] <= 1
    {
      assert f.SlotOk(s);
    }
  }
}
