/** The terminal object under the calls of a page: every call does to the object what `Sessions.Do` says. */
module Pages {
  import opened Emulator
  import opened Shape
  import opened Sessions
  import opened Terminals

  /** Any call a page makes, on the object. */
  method Perform(t: Terminal, c: Call)
    requires t.Separate() && Valid(t.Abs()) && GuardedCall(t.Abs(), c)
    modifies t, t.owned
    ensures t.Separate() && fresh(t.owned - old(t.owned))
    ensures t.Abs() == Do(old(t.Abs()), c) && Valid(t.Abs())
  {
    hide Valid, Terminal.Abs, Terminal.Separate, Guarded, Emulator.Write, Emulator.Resize, ScrollView,
      Emulator.ShowCursor,
      Emulator.SwitchCursor;
    ValidRenders(t.Abs());
    CallIsValid(t.Abs(), c);
    t.RowsOwned();
    t.QueueShown();
    match c {
      case Write(data) => t.Write(data);
      case Resize(cols, rows) => t.ResizeTo(cols, rows);
      case ScrollDisp(disp) => t.ScrollDisp(disp);
      case ShowCursor => t.ShowCursor();
      case SwitchCursor(on) => t.SwitchCursorState(on);
      case Send(data) => t.Send(data);
      case Flush => t.Flush();
    }
  }
}
