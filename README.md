# frfix in Dafny

`frfix.c` is an `LD_PRELOAD` shim for the game Fieldrunners. It intercepts a
handful of ALSA, GL and GLUT entry points. It forces the sound device to
`default`, wakes the game's audio callback only when ALSA's delay is low,
letterboxes the picture at 16:9, clamps the pointer in fullscreen, adds an
`f` fullscreen toggle and drops modifier-key releases that crash the game.

This project models that shim as one object, class `Shim.FrFix`:

- its fields are the C globals (`act_w`, `act_h`, `act_xoff`, `act_yoff`, `fs`,
  the stored game callbacks `fr_*`) and the per-interceptor `static real_func`
  slots (`cache`);
- `dlsym(RTLD_NEXT, name)` is a fixed function `dlsym: Sym -> Ptr` given to the
  constructor, and a ghost counter `lookups` records how often each slot called it;
- each intercepted entry point is a method, and a ghost `trace` records every
  call the shim hands on: to ALSA, GL or GLUT, or to one of the game's callbacks.

Files:

- `letterbox.dfy`, module `Letterbox`: the integer arithmetic of
  `handle_reshape` as the function `Compute`, with C's truncating division
  (`CDiv`) written out, and its properties as lemmas.
- `shim.dfy`, module `Shim`: the class. `Valid()` is its invariant and every
  method keeps it. `Valid()` states three things. A slot holds NULL until its
  first lookup and `dlsym`'s result after it, and a successful lookup is never
  repeated except by `glutSpecialUpFunc`. The viewport fields are `Compute` of the last reshape
  size. Every forwarded call obeys the rules of `EventOk`.
- `session.dfy`, module `Session`: three client scenarios and what the
  game observes in each. Examples: two opens resolve the symbol once, and two equal reshapes
  give the same letterbox.

The shim is built with `-m32`, so `long` is 32 bits wide like `int`.
`Compute` requires `InRange(w, h)`. That is exactly the condition under which
every `int` expression `handle_reshape` evaluates fits in 32 bits. `h * 16`
is always evaluated. `w * 9` and `h - act_h` are evaluated only in the
height-clip branch, and `w - act_w` only in the width-clip branch.
`PositiveInRange` shows that for positive sides only `h * 16` can overflow.
`Compute`'s contract states that all four results fit in 32 bits.

The method `HandleReshape` follows the C code of `handle_reshape` statement by
statement. Its helper `SetLetterbox` assigns the defaults first, then
overwrites them in a branch, and is proved to agree with `Compute`.

Two details of `frfix.c` that the model follows:

- `1000 < 1000*16/9`, so a 1000x1000 window is clipped in height:
  `act_h = 562` and `act_yoff = 219`.
- `glutSpecialUpFunc` (`frfix.c:206`) calls `dlsym` on every call. A guarded
  slot whose `dlsym` returned NULL looks the symbol up again on its next call,
  because the guard is `if (!real_func)`. `SlotOk` exempts both from its
  at-most-once bound; `Resolve` and `GlutSpecialUpFunc` state the repeated
  lookups.

## Model

| member | source | states |
|---|---|---|
| `Letterbox.CDiv` | frfix.c:100-105 | C division by a positive constant: the magnitude is the floor of the magnitude, the sign is the dividend's; for a non-negative dividend it equals Dafny's `/` |
| `Letterbox.Compute` | frfix.c:95-107 | the viewport of a `w` x `h` window; all four results fit in a 32-bit `int` whenever C's arithmetic does not overflow (`InRange`) |
| `Letterbox.PositiveInRange` | frfix.c:100-105 | a window with positive sides overflows only through `h * 16`: every positive `int` width with `0 < h <= 0x7fff_ffff / 16` is in range |
| `Letterbox.Bounds` | frfix.c:95-107 | for `w, h > 0`: `0 <= act_w <= w`, `0 <= act_h <= h`, both offsets are non-negative, at least one offset is 0, and at least one axis is used in full |
| `Letterbox.Centred` | frfix.c:102-105 | `2*act_xoff + act_w` is `w` or `w-1`, and `2*act_yoff + act_h` is `h` or `h-1` |
| `Letterbox.Ratio` | frfix.c:100-106 | 16:9 up to truncation: `16*act_h <= 9*act_w < 16*act_h + 16` when the height is clipped, `9*act_w <= 16*act_h < 9*act_w + 9` otherwise |
| `Letterbox.BranchDirection` | frfix.c:100-107 | `w < h*16/9` holds exactly when the height is clipped (to `w*9/16`, centred vertically); `w > h*16/9` holds exactly when the width is clipped (to `h*16/9`, centred horizontally); equality holds exactly when the whole window is used with no offsets |
| `Letterbox.ExactRatio` | frfix.c:100-107 | a window whose sides are exactly 16:9 gets offsets (0, 0) and the whole window |
| `Letterbox.Examples` | frfix.c:95-107 | 1920x1200 gives 1920x1080 at y offset 60; 1000x1000 gives height 562 at y offset 219; 2000x900 gives width 1600 at x offset 200; 1920x1080 gives no offsets; 200000000x100 is in range and gives width 177 at x offset 99999911 |
| `Shim.TraceRules` | frfix.c:30-209 | in every trace the shim can produce: each open names `"default"`; `fake_callback` is what gets registered for the game's audio callback; avail/delay is read right after the handler's pcm is fetched, for that pcm; the game's audio callback runs only right after a delay reading below 1024, which itself follows the fetch of the same handler's pcm; each GLUT registration installs the shim's own trampoline; key `'f'` never reaches the game; special-up keys 112..117 never reach it |
| `Shim.ShimTrace` | frfix.c:30-209 | for any shim object in a reachable state (one satisfying `Valid()`, which the constructor establishes and every method keeps): each open names `"default"`; the registered audio callback is `fake_callback`; the game's audio callback runs only right after a delay reading below 1024 for the pcm of the same handler; `'f'` and the special-up keys 112..117 never reach the game; a guarded symbol that resolves is looked up at most once; the viewport is `Compute` of the last reshape |
| `Shim.TraceOkAppend` | frfix.c:30-209 | extending a well-behaved trace keeps it well behaved exactly when each new event obeys `EventOk` |
| `Shim.Clamp` | frfix.c:146-155 | the fullscreen clamp only lowers a coordinate; in fullscreen the result is at most the cap; it changes the coordinate exactly when fullscreen and above the cap, and then to the cap; there is no lower clamp |
| `Shim.Warps` | frfix.c:146-154 | no warp when windowed; in fullscreen one warp per coordinate above its cap, so at most two; the `x` warp comes first and moves the pointer to (`act_w`, `y` unscaled); the `y` warp comes last and moves it to (the clamped `x` unscaled, `act_h`) |
| `Shim.FrFix.constructor` | frfix.c:83-85 | the shim before any call: every slot empty and never looked up, every game callback NULL, viewport all zero, `fs` false, empty trace |
| `Shim.FrFix.LookUp` | frfix.c:206 | `real_func = dlsym(...)`: the slot receives `dlsym`'s result and its lookup count grows by one; allowed on a filled slot only for `glutSpecialUpFunc` |
| `Shim.FrFix.Resolve` | frfix.c:40 | `if (!real_func) real_func = dlsym(...)`: returns `dlsym`'s result; counts a lookup only when the slot was empty, so a guarded slot looks up a resolvable symbol at most once over any sequence of calls |
| `Shim.FrFix.SndPcmOpen` | frfix.c:30-42 | forwards exactly one open, with device `"default"` whatever name was passed; `pcm`, `stream` and `mode` are unchanged, and the real call's result is returned unchanged |
| `Shim.FrFix.FakeCallback` | frfix.c:46-62 | first fetches the handler's pcm, then reads avail and delay; the stored game callback is invoked, with the same handler, exactly when `delay < 1024`, and nothing else is forwarded |
| `Shim.FrFix.SndAsyncAddPcmHandler` | frfix.c:66-80 | stores the game's callback in `fr_callback`; registers `fake_callback` with the same `handler`, `pcm` and `private_data`; returns the real call's result |
| `Shim.FrFix.GlViewport` | frfix.c:88 | the game's `glViewport` changes nothing: no state, no forwarded call |
| `Shim.FrFix.SetLetterbox` | frfix.c:95-107 | the defaults `w, h, 0, 0`, then the branch of frfix.c:100-107; the four viewport fields end as `Compute(w, h)` and `window` as `Sized(w, h)` |
| `Shim.FrFix.HandleReshape` | frfix.c:92-113 | the viewport fields become `Compute(w, h)`, so a repeated reshape of the same size gives the same viewport; exactly one real `glViewport(act_xoff, act_yoff, act_w, act_h)` is made; `fs` becomes (screen width == window width and screen height == window height) |
| `Shim.FrFix.GlutReshapeFunc` | frfix.c:115-119 | the game's handler is neither stored nor called; `handle_reshape` is registered |
| `Shim.FrFix.FakedKbfunc` | frfix.c:123-129 | `'f'` is never forwarded: it requests a 1280x720 window when `fs` is set and fullscreen otherwise; any other key goes to the game with `key`, `x` and `y` unchanged |
| `Shim.FrFix.GlutKeyboardFunc` | frfix.c:133-138 | stores the game's handler in `fr_kbfunc` and registers `faked_kbfunc` |
| `Shim.FrFix.MangleMouse` | frfix.c:146-155 | on already-scaled coordinates: unchanged when windowed; in fullscreen `x` is capped at 1280 and `y` at 720, each cap making one warp, `x` first |
| `Shim.FrFix.FakedMousefunc` | frfix.c:158-162 | on already-scaled coordinates: the clamp's warps, then the game's mouse handler with `button` and `state` unchanged and the clamped coordinates |
| `Shim.FrFix.FakedPmotionfunc` | frfix.c:163-167 | on already-scaled coordinates: the clamp's warps, then the game's passive-motion handler with the clamped coordinates |
| `Shim.FrFix.FakedMotionfunc` | frfix.c:168-172 | on already-scaled coordinates: the clamp's warps, then the game's motion handler with the clamped coordinates |
| `Shim.FrFix.GlutMouseFunc` | frfix.c:174-179 | stores the game's handler in `fr_mousefunc` and registers `faked_mousefunc` |
| `Shim.FrFix.GlutPassiveMotionFunc` | frfix.c:180-185 | stores the game's handler in `fr_pmotionfunc` and registers `faked_pmotionfunc` |
| `Shim.FrFix.GlutMotionFunc` | frfix.c:186-191 | stores the game's handler in `fr_motionfunc` and registers `faked_motionfunc` |
| `Shim.FrFix.FakedSpecialup` | frfix.c:199-202 | keys 112..117 (the Shift, Ctrl and Alt releases) are dropped; every other key goes to the game with `x` and `y` unchanged |
| `Shim.FrFix.GlutSpecialUpFunc` | frfix.c:204-209 | calls `dlsym` on every call, filled slot or not; stores the game's handler in `fr_specialup` and registers `faked_specialup` |

## Left out

- The dynamic loader: `dlsym(RTLD_NEXT, ...)` is a fixed function of the symbol. Which library answers, and the address it returns, are not modelled.
- Calling through NULL: a slot or game callback that is NULL is still "called" in the model. The trace records the NULL target. In C this is undefined behaviour and in practice a crash.
- ALSA, GL and GLUT themselves: `snd_async_handler_get_pcm`, `snd_pcm_avail_delay`, `glutGet` and the real calls' return codes are method inputs. `glutWarpPointer`, `glutFullScreen`, `glutReshapeWindow`, the real `glViewport` and the real registrations appear only as trace events.
- `FakeCallback`: the return code of `snd_pcm_avail_delay` is ignored by the source, so a failed read leaves `delay` uninitialised. The model takes whatever `delay` holds as an input.
- `HandleReshape`: the four `glutGet` queries are inputs, not trace events.
- `HandleReshape`: requires `Letterbox.InRange(w, h)`, as `Compute` does. A size outside it makes one of the `int` expressions of `frfix.c:100-105` overflow, which is undefined behaviour in C, so the model does not describe it.
- Float arithmetic: `ptr_scale` (`frfix.c:84`, `99`, `106`) is not modelled.
- MangleMouse: the offset subtraction and float scaling of `frfix.c:144-145` are not modelled. The method takes the already-scaled integer coordinates as inputs, and so do `FakedMousefunc`, `FakedPmotionfunc` and `FakedMotionfunc`, which in C receive raw window coordinates. The warp coordinate `*y / ptr_scale` or `*x / ptr_scale` is recorded as `Unscaled(v)`, i.e. "v divided by the pointer scale", without computing it.
- Events caused later by a call: the reshape that `glutReshapeWindow` or `glutFullScreen` eventually triggers is not modelled. The GLUT event loop that runs it is outside the shim.
- The asynchronous, signal-driven delivery of ALSA notifications is left out. It is concurrency. `FakeCallback` models one notification at a time.
