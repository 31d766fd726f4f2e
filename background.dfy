/** The one piece of page state: the background that the `change_background` frontend tool
    overwrites. */
module Background {

  /** The value `useState` starts from. */
  const InitialBackground := "#6366f1"

  /** The confirmation the handler returns to the agent. */
  function Confirmation(background: string): string
  {
    "Background changed to " + background
  }

  class Page {
    var background: string

    constructor ()
      ensures background == InitialBackground
    {
      background := InitialBackground;
    }

    /** The `change_background` handler: the new value replaces the old one, whatever it was. */
    method ChangeBackground(newBackground: string) returns (message: string)
      modifies this
      ensures background == newBackground
      ensures message == Confirmation(newBackground)
    {
      background := newBackground;
      message := Confirmation(newBackground);
    }
  }

  /** Two changes in a row: the last one wins, and each confirms its own value. */
  method TwoChanges(first: string, second: string) returns (page: Page, m1: string, m2: string)
    ensures fresh(page)
    ensures page.background == second
    ensures m1 == Confirmation(first) && m2 == Confirmation(second)
  {
    page := new Page();
    assert page.background == InitialBackground;
    m1 := page.ChangeBackground(first);
    m2 := page.ChangeBackground(second);
  }
}
