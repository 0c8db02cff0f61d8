/** Call sequences of the driver loop against the controller, showing what
    callers can conclude from the controller's contracts alone. */
module DisplayScenarios {
  import opened Graphics
  import opened Display

  /** Two ticks with no state change in between send the same frame twice,
      whatever elapsed times they are given. */
  method TickTwice(c: Controller, us1: u64, us2: u64)
    requires c.Valid()
    modifies c.target
    ensures c.state == old(c.state)
    ensures c.target.log == old(c.target.log) + Frame(c.state) + Frame(c.state)
  {
    c.Tick(us1);
    c.Tick(us2);
  }

  /** A state that is replaced before the next tick is never rendered. */
  method SetStateTwiceThenTick(c: Controller, first: State, second: State, us: u64)
    requires c.Valid()
    modifies c, c.target
    ensures c.state == second
    ensures c.target.log == old(c.target.log) + Frame(second)
  {
    c.SetState(first);
    c.SetState(second);
    c.Tick(us);
  }

  /** Idle, then two digits entered, then a rejected PIN: three frames in
      order, the second showing two stars and two blank slots. */
  method IdlePinWrong() returns (log: seq<Cmd>)
    ensures log == Frame(Idle) + Frame(PIN(2)) + Frame(Wrong)
    ensures Frame(PIN(2))[2].t.text == "* *    "
  {
    var target := new Target();
    var c := new Controller(target);
    c.SetState(Idle);
    c.Tick(0);
    c.SetState(PIN(2));
    c.Tick(1000);
    c.SetState(Wrong);
    c.Tick(2000);
    log := target.log;
    assert Stars(2) == "* *    ";
  }
}
