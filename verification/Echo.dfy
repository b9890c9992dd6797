/**
 * The drawer's own client (useRoomSocket.ts, sendStroke and sendClear): it draws at once and sends what it drew,
 * which arrives at the server later, in order, while the round goes on.
 */
module Echo {
  import opened Protocol
  import opened Game
  import opened RoomInvariant
  import opened Text

  datatype Ink = Line(stroke: Stroke) | Clean

  datatype Desk = Desk(
    live: Live,
    shown: seq<Stroke>,       // strokesRef of the drawer's client
    under: seq<Ink>,          // sent, but not yet handled by the server
    handled: seq<Stroke>)     // what the handled ink amounts to, without the buffer's limit

  datatype Act =
    | Draws(stroke: Stroke)   // sendStroke
    | Clears                  // sendClear
    | Arrives                 // the server handles the oldest ink under way
    | Meanwhile(event: Event) // anything else in the room

  function Apply(strokes: seq<Stroke>, ink: Ink): seq<Stroke> {
    match ink case Line(stroke) => strokes + [stroke] case Clean => []
  }

  function Replay(strokes: seq<Stroke>, inks: seq<Ink>): seq<Stroke> {
    if inks == [] then strokes else Apply(Replay(strokes, inks[..|inks| - 1]), inks[|inks| - 1])
  }

  /** A stroke the canvas makes: some points, and nothing the server would cut or clamp. */
  predicate Neat(stroke: Stroke) {
    1 <= |stroke.points| <= 256 && |stroke.color| <= 32 && 1.0 <= stroke.width <= 48.0
  }

  /** Whether the event is ink of that player, which only its client sends. */
  predicate IsInk(e: Event, id: PlayerId) {
    (e.Paint? || e.Wipe?) && e.id == id
  }

  /** What may happen while player id draws and the round goes on. */
  predicate Possible(d: Desk, id: PlayerId, a: Act) {
    match a
    case Draws(stroke) => Neat(stroke)
    case Clears => true
    case Arrives => d.under != []
    case Meanwhile(e) => Enabled(d.live, e) && !IsInk(e, id) && MayDraw(Step(d.live, e), id)
  }

  function Do(d: Desk, id: PlayerId, a: Act): Desk
    requires Possible(d, id, a)
  {
    match a
    case Draws(stroke) => d.(shown := d.shown + [stroke], under := d.under + [Line(stroke)])
    case Clears => d.(shown := [], under := d.under + [Clean])
    case Arrives =>
      var live := match d.under[0]
                  case Line(stroke) => HandleDraw(d.live, id, stroke)
                  case Clean => HandleDrawClear(d.live, id);
      d.(live := live, under := d.under[1..], handled := Apply(d.handled, d.under[0]))
    case Meanwhile(e) => d.(live := Step(d.live, e))
  }

  predicate Run(d: Desk, id: PlayerId, acts: seq<Act>)
    decreases |acts|, 0
  {
    acts != [] ==>
      var n := |acts| - 1;
      Run(d, id, acts[..n]) && Possible(After(d, id, acts[..n]), id, acts[n])
  }

  function After(d: Desk, id: PlayerId, acts: seq<Act>): Desk
    requires Run(d, id, acts)
    decreases |acts|, 1
  {
    if acts == [] then d else Do(After(d, id, acts[..|acts| - 1]), id, acts[|acts| - 1])
  }

  /** The client shows what the server has handled with the ink under way on top; the server's buffer is cut off. */
  predicate Together(d: Desk, id: PlayerId) {
    && Inv(d.live) && MayDraw(d.live, id)
    && d.live.room.strokes == Clip(d.handled, MAX_BUFFERED_STROKES)
    && d.shown == Replay(d.handled, d.under)
    && forall ink :: ink in d.under && ink.Line? ==> Neat(ink.stroke)
  }

  lemma ReplaySnoc(strokes: seq<Stroke>, inks: seq<Ink>, ink: Ink)
    ensures Replay(strokes, inks + [ink]) == Apply(Replay(strokes, inks), ink)
  {
    assert (inks + [ink])[..|inks|] == inks;
  }

  lemma {:induction false} ReplayFirst(strokes: seq<Stroke>, inks: seq<Ink>)
    requires inks != []
    ensures Replay(strokes, inks) == Replay(Apply(strokes, inks[0]), inks[1..])
  {
    var n := |inks| - 1;
    if n > 0 {
      ReplayFirst(strokes, inks[..n]);
      assert inks[..n][1..] + [inks[n]] == inks[1..];
      ReplaySnoc(Apply(strokes, inks[0]), inks[..n][1..], inks[n]);
    }
  }

  lemma ArrivalKeepsTogether(d: Desk, id: PlayerId)
    requires Together(d, id) && d.under != []
    ensures Together(Do(d, id, Arrives), id)
  {
    ReplayFirst(d.handled, d.under);
    assert d.under[0] in d.under;
    assert forall ink :: ink in d.under[1..] ==> ink in d.under;
    var e := match d.under[0] case Line(stroke) => Paint(id, stroke) case Clean => Wipe(id);
    StepKeepsInv(d.live, e);
  }

  lemma LeaveKeepsStrokes(s: Live, left: PlayerId)
    requires HandleClose(s, left).room.drawerId.Some?
    ensures HandleClose(s, left).room.strokes == s.room.strokes
  {
    assert Farewell(s, left).room.strokes == s.room.strokes;
    DepartureKeepsStrokes(Farewell(s, left), left);
  }

  lemma DepartureKeepsStrokes(s: Live, left: PlayerId)
    requires AfterDeparture(s, left).room.drawerId.Some?
    ensures AfterDeparture(s, left).room.strokes == s.room.strokes
  {
  }

  lemma SayKeepsStrokes(s: Live, speaker: PlayerId, text: string)
    ensures HandleChat(s, speaker, text).room.strokes == s.room.strokes
  {
  }

  /** While the same player draws, nobody else touches the picture. */
  lemma RoundKeepsStrokes(s: Live, e: Event, id: PlayerId)
    requires Inv(s) && Enabled(s, e) && MayDraw(s, id) && MayDraw(Step(s, e), id) && !IsInk(e, id)
    ensures Step(s, e).room.strokes == s.room.strokes
  {
    match e
    case Leave(left) => LeaveKeepsStrokes(s, left);
    case Say(speaker, text) => SayKeepsStrokes(s, speaker, text);
    case Alert(t, word) => AlertFindsGame(s, t, word);
    case _ =>
  }

  lemma DoKeepsTogether(d: Desk, id: PlayerId, a: Act)
    requires Together(d, id) && Possible(d, id, a)
    ensures Together(Do(d, id, a), id)
  {
    match a
    case Draws(stroke) => ReplaySnoc(d.handled, d.under, Line(stroke));
    case Clears => ReplaySnoc(d.handled, d.under, Clean);
    case Arrives => ArrivalKeepsTogether(d, id);
    case Meanwhile(e) =>
      StepKeepsInv(d.live, e);
      RoundKeepsStrokes(d.live, e, id);
  }

  lemma {:induction false} RunsStayTogether(d: Desk, id: PlayerId, acts: seq<Act>)
    requires Together(d, id) && Run(d, id, acts)
    ensures Together(After(d, id, acts), id)
    decreases |acts|
  {
    if acts != [] {
      var n := |acts| - 1;
      RunsStayTogether(d, id, acts[..n]);
      DoKeepsTogether(After(d, id, acts[..n]), id, acts[n]);
    }
  }

  /** What the drawer has drawn since it last cleared the canvas. */
  function Drawn(acts: seq<Act>): seq<Stroke> {
    if acts == [] then []
    else
      var n := |acts| - 1;
      match acts[n]
      case Draws(stroke) => Drawn(acts[..n]) + [stroke]
      case Clears => []
      case _ => Drawn(acts[..n])
  }

  lemma {:induction false} DrawnIsShown(d: Desk, id: PlayerId, acts: seq<Act>)
    requires d.shown == [] && Run(d, id, acts)
    ensures After(d, id, acts).shown == Drawn(acts)
    decreases |acts|
  {
    if acts != [] {
      DrawnIsShown(d, id, acts[..|acts| - 1]);
    }
  }

  /**
   * From the beginning of its round on, whatever the drawer draws and clears and whatever happens meanwhile: its client
   * shows what it drew since it last cleared, and once nothing is under way the server's picture is the same, cut off
   * at 3000 strokes.
   */
  lemma DrawerSeesThePicture(s: Live, id: PlayerId, acts: seq<Act>)
    requires Inv(s) && MayDraw(s, id) && s.room.strokes == [] && Run(Desk(s, [], [], []), id, acts)
    ensures var d := After(Desk(s, [], [], []), id, acts);
            && d.shown == Drawn(acts)
            && (d.under == [] ==> d.live.room.strokes == Clip(Drawn(acts), 3000))
  {
    RunsStayTogether(Desk(s, [], [], []), id, acts);
    DrawnIsShown(Desk(s, [], [], []), id, acts);
  }
}
