/** The pygame events the scenes react to, the scene names, and the routing
    each scene's handle_event performs. A routing function names the scene
    an event switches to (the string a handler returns), or None. */
module Events {
  import opened Common
  import opened Persistence

  /** The keys the scenes test; every other key is OtherKey. */
  datatype Key = Key1 | Return | Key2 | KeyM | Escape | KeyR | Space | OtherKey(code: int)

  datatype Event = KeyDown(key: Key) | MouseDown(button: int) | Quit | OtherEvent

  datatype SceneName = Menu | Gameplay | Relax

  /** One event together with what handling it may read besides the event:
      the mouse position at that moment, the random() draw a reset made
      while handling it would use, and the outcomes of the first and second
      save_game calls it makes (R ends the session and resets: two saves;
      Escape, quit and entering relax mode: one). */
  datatype Input = Input(event: Event, mouse: Vec, roll: real, first: Outcome, second: Outcome)

  /** MenuScene.handle_event's result: 1, Enter or the left button start a
      game, 2 starts relax mode, anything else stays. */
  function MenuRoute(e: Event): (r: Option<SceneName>)
    ensures r == Some(Gameplay) <==> e == KeyDown(Key1) || e == KeyDown(Return) || e == MouseDown(1)
    ensures r == Some(Relax) <==> e == KeyDown(Key2)
    ensures r != Some(Menu)
  {
    match e
    case KeyDown(k) =>
      if k == Key1 || k == Return then Some(Gameplay)
      else if k == Key2 then Some(Relax)
      else None
    case MouseDown(b) => if b == 1 then Some(Gameplay) else None
    case _ => None
  }

  /** The result of GameplayScene.handle_event and RelaxScene.handle_event:
      Escape returns to the menu, nothing else leaves the scene. */
  function PlayRoute(e: Event): (r: Option<SceneName>)
    ensures r.Some? <==> e == KeyDown(Escape)
    ensures r.Some? ==> r.value == Menu
  {
    if e == KeyDown(Escape) then Some(Menu) else None
  }

  /** The route of the scene named `name`. */
  function Route(name: SceneName, e: Event): Option<SceneName>
  {
    match name
    case Menu => MenuRoute(e)
    case _ => PlayRoute(e)
  }

  /** No scene switches to itself, and play scenes only lead to the menu:
      every route out of gameplay or relax mode passes through the menu. */
  lemma RoutesLeaveTheScene(name: SceneName, e: Event)
    ensures Route(name, e) != Some(name)
    ensures name != Menu && Route(name, e).Some? ==> Route(name, e) == Some(Menu)
    ensures e == Quit || e == OtherEvent ==> Route(name, e) == None
  {
  }
}
