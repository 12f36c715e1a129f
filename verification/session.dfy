/** Ending the client's session with the host: best-effort notification,
    unconditional local cleanup. */
module Session {
  import opened Protocol

  /** The client's application session with the host device. */
  datatype AppSession = AppSession(started: bool, hasChannel: bool)

  /** The calls `EndSession` makes, in order: the game stream's `leave` and
      the session's own end. */
  datatype Attempt = SendLeave | EndCall

  /** The session reference afterwards and the calls made. */
  datatype Ending = Ending(session: Option<AppSession>, attempts: seq<Attempt>)

  /** There is a session and it has started. */
  predicate Active(s: Option<AppSession>)
  {
    s.Some? && s.value.started
  }

  /** Ending the session: only a started session is ended; `leave` is sent
      first when there is a channel, and if it throws (`leaveThrows`) the
      session's end is not called. Whether anything throws, the session
      reference is dropped afterwards. */
  function EndSession(s: Option<AppSession>, leaveThrows: bool): (e: Ending)
    ensures !Active(s) ==> e == Ending(s, [])
    ensures Active(s) ==> e.session.None?
    ensures SendLeave in e.attempts <==> Active(s) && s.value.hasChannel
    ensures EndCall in e.attempts <==> Active(s) && !(s.value.hasChannel && leaveThrows)
    ensures |e.attempts| <= 2 && (|e.attempts| == 2 ==> e.attempts == [SendLeave, EndCall])
  {
    if Active(s) then
      var leave := if s.value.hasChannel then [SendLeave] else [];
      var end := if s.value.hasChannel && leaveThrows then [] else [EndCall];
      Ending(None, leave + end)
    else
      Ending(s, [])
  }

  /** After `EndSession` no started session is left, so ending again does
      nothing at all, whatever fails the second time. */
  lemma EndSessionIdempotent(s: Option<AppSession>, leaveThrows: bool, leaveThrows': bool)
    ensures !Active(EndSession(s, leaveThrows).session)
    ensures var once := EndSession(s, leaveThrows).session;
      EndSession(once, leaveThrows') == Ending(once, [])
  {
  }
}
