/** The home page's greeting by hour of day and the name it greets. */
module Home {

  import opened Options
  import opened AppContext

  datatype Greeting = GoodMorning | GoodAfternoon | GoodEvening

  function Text(g: Greeting): string {
    match g
    case GoodMorning => "Good Morning"
    case GoodAfternoon => "Good Afternoon"
    case GoodEvening => "Good Evening"
  }

  /** The greeting for the clock's hour. */
  function GreetingFor(hour: int): Greeting {
    if hour < 12 then GoodMorning
    else if hour < 18 then GoodAfternoon
    else GoodEvening
  }

  /** The position of a greeting in the day. */
  function Rank(g: Greeting): nat {
    match g
    case GoodMorning => 0
    case GoodAfternoon => 1
    case GoodEvening => 2
  }

  /** Each greeting covers one band of hours, and the bands split the day without overlap. */
  lemma GreetingBands(hour: int)
    requires 0 <= hour <= 23
    ensures GreetingFor(hour) == GoodMorning <==> hour <= 11
    ensures GreetingFor(hour) == GoodAfternoon <==> 12 <= hour <= 17
    ensures GreetingFor(hour) == GoodEvening <==> 18 <= hour
  {
  }

  /** Later hours never get an earlier greeting. */
  lemma GreetingIsMonotone(h1: int, h2: int)
    requires h1 <= h2
    ensures Rank(GreetingFor(h1)) <= Rank(GreetingFor(h2))
  {
  }

  /** The three greetings have distinct texts, so the text identifies the band. */
  lemma TextsAreDistinct(g1: Greeting, g2: Greeting)
    ensures Text(g1) == Text(g2) <==> g1 == g2
  {
    if g1 != g2 {
      assert Text(g1)[5] != Text(g2)[5];
    }
  }

  /** `user?.name || 'User'`. */
  function DisplayName(u: Option<User>): (name: string)
    ensures name != ""
    ensures u.Some? && u.value.name != "" ==> name == u.value.name
    ensures u.None? || u.value.name == "" ==> name == "User"
  {
    if u.Some? && u.value.name != "" then u.value.name else "User"
  }
}
