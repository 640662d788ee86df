/** The decision logic of the connection to the remote music player: which
    client calls each button makes, and which state it reports. The player is
    an abstract value: what it currently reports, and which client calls fail. */
module Spotify {
  import opened Buttons

  /** The client operations the button server issues. `Factory` builds an
      authenticated client, which can fail like any network call. */
  datatype Call = Factory | CurrentlyPlaying | PreviousTrack | NextTrack | StartPlayback | PausePlayback

  /** The reply to "currently playing": nothing at all, or a record whose
      `is_playing` field may be missing. */
  datatype Report = NothingPlaying | Playback(isPlaying: Option<bool>)

  /** The remote player: what it reports, and the calls that raise an error. */
  datatype Remote = Remote(report: Report, failing: set<Call>)

  /** What a press reports, the player afterwards, and the calls attempted in order. */
  datatype Outcome = Outcome(state: State, remote: Remote, calls: seq<Call>)

  predicate Playing(remote: Remote) {
    remote.report.Playback? && remote.report.isPlaying == Some(true)
  }

  predicate Healthy(remote: Remote) {
    remote.failing == {}
  }

  /** The calls that change what the player does. */
  predicate Mutating(c: Call) {
    c in {PreviousTrack, NextTrack, StartPlayback, PausePlayback}
  }

  /** Some attempted call raised an error. */
  predicate Failed(calls: seq<Call>, remote: Remote) {
    exists c :: c in calls && c in remote.failing
  }

  /** A run of calls stops at the first one that raises an error. */
  predicate StopsAtFailure(calls: seq<Call>, remote: Remote) {
    forall i :: 0 <= i < |calls| - 1 ==> calls[i] !in remote.failing
  }

  /** The state a successful "currently playing" reply stands for. */
  function StateOfReport(report: Report): (s: State)
    ensures s == Playing1 <==> report.Playback? && report.isPlaying == Some(true)
    ensures s == Playing1 || s == Stopped
  {
    match report
    case NothingPlaying => Stopped
    case Playback(p) => if p.Some? && p.value then Playing1 else Stopped
  }

  /** Asks the player what it is doing; a failing call reads as the error state. */
  function GetState(remote: Remote): (o: Outcome)
    ensures o.remote == remote && o.calls == [CurrentlyPlaying]
    ensures o.state == Error <==> CurrentlyPlaying in remote.failing
    ensures o.state == Playing1 <==> CurrentlyPlaying !in remote.failing && Playing(remote)
    ensures o.state == Stopped <==> CurrentlyPlaying !in remote.failing && !Playing(remote)
  {
    if CurrentlyPlaying in remote.failing then Outcome(Error, remote, [CurrentlyPlaying])
    else Outcome(StateOfReport(remote.report), remote, [CurrentlyPlaying])
  }

  /** Skipping to the previous (blue) or next (green) track, then reading the
      state back, where "stopped" is shown as playing. */
  function Skip(remote: Remote, skip: Call): (o: Outcome)
    requires skip == PreviousTrack || skip == NextTrack
    ensures o.state == Playing1 || o.state == Error
    ensures o.state == Error <==> Failed(o.calls, remote)
    ensures StopsAtFailure(o.calls, remote)
    ensures o.remote == remote
    ensures forall c :: c in o.calls && Mutating(c) ==> c == skip
    ensures o.calls <= [Factory, skip, CurrentlyPlaying]
    ensures !Failed(o.calls, remote) ==> o.calls == [Factory, skip, CurrentlyPlaying]
  {
    if Factory in remote.failing then Outcome(Error, remote, [Factory])
    else if skip in remote.failing then Outcome(Error, remote, [Factory, skip])
    else
      var g := GetState(remote);
      Outcome(if g.state == Stopped then Playing1 else g.state, g.remote, [Factory, skip] + g.calls)
  }

  /** The blue button: previous track. */
  function PressBlue(remote: Remote): (o: Outcome)
    ensures o.state == Playing1 || o.state == Error
    ensures o.state == Error <==> Failed(o.calls, remote)
    ensures StopsAtFailure(o.calls, remote)
    ensures o.remote == remote
    ensures o.calls <= [Factory, PreviousTrack, CurrentlyPlaying]
    ensures !Failed(o.calls, remote) ==> o.calls == [Factory, PreviousTrack, CurrentlyPlaying]
    ensures NextTrack !in o.calls && StartPlayback !in o.calls && PausePlayback !in o.calls
  {
    Skip(remote, PreviousTrack)
  }

  /** The green button: next track. */
  function PressGreen(remote: Remote): (o: Outcome)
    ensures o.state == Playing1 || o.state == Error
    ensures o.state == Error <==> Failed(o.calls, remote)
    ensures StopsAtFailure(o.calls, remote)
    ensures o.remote == remote
    ensures o.calls <= [Factory, NextTrack, CurrentlyPlaying]
    ensures !Failed(o.calls, remote) ==> o.calls == [Factory, NextTrack, CurrentlyPlaying]
    ensures PreviousTrack !in o.calls && StartPlayback !in o.calls && PausePlayback !in o.calls
  {
    Skip(remote, NextTrack)
  }

  /** The red button: starts a stopped player, pauses a playing one, and
      touches nothing when the player's state cannot be read. */
  function PressRed(remote: Remote): (o: Outcome)
    ensures o.state == Error <==> Failed(o.calls, remote)
    ensures StopsAtFailure(o.calls, remote)
    ensures o.state != Playing2 && o.state != Request
    ensures Healthy(remote) ==> o.state == (if Playing(remote) then Stopped else Playing1)
    ensures Healthy(remote) ==> Playing(o.remote) == !Playing(remote) && Healthy(o.remote)
    ensures CurrentlyPlaying in remote.failing ==> forall c :: c in o.calls ==> !Mutating(c)
    ensures o.calls <= [Factory, CurrentlyPlaying, StartPlayback] || o.calls <= [Factory, CurrentlyPlaying, PausePlayback]
    ensures Factory !in remote.failing && CurrentlyPlaying !in remote.failing ==>
      o.calls == [Factory, CurrentlyPlaying, if Playing(remote) then PausePlayback else StartPlayback]
    ensures !Failed(o.calls, remote) ==>
      o.calls == [Factory, CurrentlyPlaying, if Playing(remote) then PausePlayback else StartPlayback]
    ensures !Failed(o.calls, remote) ==>
      o.state == (if Playing(remote) then Stopped else Playing1) &&
      o.remote == remote.(report := Playback(Some(!Playing(remote))))
    ensures Failed(o.calls, remote) ==> o.remote == remote
  {
    if Factory in remote.failing then Outcome(Error, remote, [Factory])
    else
      var g := GetState(remote);
      if g.state == Stopped then
        if StartPlayback in remote.failing then Outcome(Error, remote, [Factory, CurrentlyPlaying, StartPlayback])
        else Outcome(Playing1, remote.(report := Playback(Some(true))), [Factory, CurrentlyPlaying, StartPlayback])
      else if g.state == Playing1 || g.state == Playing2 then
        if PausePlayback in remote.failing then Outcome(Error, remote, [Factory, CurrentlyPlaying, PausePlayback])
        else Outcome(Stopped, remote.(report := Playback(Some(false))), [Factory, CurrentlyPlaying, PausePlayback])
      else
        Outcome(g.state, remote, [Factory, CurrentlyPlaying])
  }

  /** Refresh: reads the player's state and changes nothing. */
  function PressNothing(remote: Remote): (o: Outcome)
    ensures o.remote == remote
    ensures forall c :: c in o.calls ==> !Mutating(c)
    ensures o.state == Error <==> Failed(o.calls, remote)
    ensures StopsAtFailure(o.calls, remote)
    ensures o.calls <= [Factory, CurrentlyPlaying]
    ensures !Failed(o.calls, remote) ==> o.calls == [Factory, CurrentlyPlaying]
    ensures o.state == (if Factory in remote.failing then Error else GetState(remote).state)
  {
    if Factory in remote.failing then Outcome(Error, remote, [Factory])
    else
      var g := GetState(remote);
      Outcome(g.state, g.remote, [Factory] + g.calls)
  }

  /** Reading the state twice with nothing in between gives the same answer. */
  lemma GetStateIdempotent(remote: Remote)
    ensures GetState(GetState(remote).remote) == GetState(remote)
  {
  }

  /** Against a healthy player, two red presses return the player to whether it
      was playing, and the two reports are "playing" and "stopped" in some order. */
  lemma RedToggleRestores(remote: Remote)
    requires Healthy(remote)
    ensures Playing(PressRed(PressRed(remote).remote).remote) == Playing(remote)
    ensures {PressRed(remote).state, PressRed(PressRed(remote).remote).state} == {Stopped, Playing1}
  {
  }

  /** A player on which every call fails leaves every press in the error state. */
  lemma AllFailingGivesError(remote: Remote)
    requires remote.failing == {Factory, CurrentlyPlaying, PreviousTrack, NextTrack, StartPlayback, PausePlayback}
    ensures PressBlue(remote).state == Error && PressGreen(remote).state == Error
    ensures PressRed(remote).state == Error && PressNothing(remote).state == Error
  {
  }
}
