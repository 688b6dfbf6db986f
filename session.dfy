/** A client of the shim: what the game can observe in a sequence of calls with
    every symbol resolvable. */
module Session {
  import Letterbox
  import opened Shim

  /** The game asks for plughw:0,0 twice: "default" is opened both times
      and `snd_pcm_open` is looked up once. */
  method OpenTwice(dl: Sym -> Ptr, first: int, second: int)
    requires forall s :: dl(s) != Null
  {
    var shim := new FrFix(dl);
    var r := shim.SndPcmOpen(1, "plughw:0,0", 0, 0, first);
    assert r == first;
    r := shim.SndPcmOpen(1, "plughw:0,0", 0, 0, second);
    assert shim.trace[1].name == DefaultDevice;
    assert shim.SlotOk(Sym.SndPcmOpen) && shim.lookups[Sym.SndPcmOpen] == 1;
  }

  /** A fullscreen 1920x1200 window reshaped twice, with the game's own
      glViewport in between: the same letterbox both times. */
  method ReshapeTwice(dl: Sym -> Ptr)
    requires forall s :: dl(s) != Null
  {
    var shim := new FrFix(dl);
    Letterbox.Examples();
    shim.HandleReshape(1920, 1200, 1920, 1920, 1200, 1200);
    assert shim.actW == 1920 && shim.actH == 1080 && shim.actXoff == 0 && shim.actYoff == 60;
    shim.GlViewport(0, 0, 1280, 720);
    shim.HandleReshape(1920, 1200, 1920, 1920, 1200, 1200);
    assert shim.actW == 1920 && shim.actH == 1080 && shim.actXoff == 0 && shim.actYoff == 60;
    assert shim.SlotOk(Sym.GlViewport) && shim.lookups[Sym.GlViewport] == 1;
  }

  /** 'f' while windowed requests fullscreen instead of reaching the game;
      glutSpecialUpFunc looks its symbol up on every call. */
  method Keys(dl: Sym -> Ptr)
    requires forall s :: dl(s) != Null
  {
    var shim := new FrFix(dl);
    shim.GlutKeyboardFunc(Native(42));
    shim.FakedKbfunc(KeyF, 0, 0);
    assert shim.trace[|shim.trace| - 1] == FullScreen;
    shim.GlutSpecialUpFunc(Native(7));
    shim.GlutSpecialUpFunc(Native(7));
    assert shim.lookups[Sym.GlutSpecialUpFunc] == 2;
  }
}
