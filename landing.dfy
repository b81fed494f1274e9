/**
 * The landing page (`LandingPage.jsx`): where "Launch" leads, and the word
 * carousel of the hero, which moves to the next word on every tick of its
 * interval timer and wraps around.
 */
module Landing {
  import opened Wrappers
  import opened Models
  import AuthContext
  import AppRoutes

  /** `handleLaunchApp`: admins to their dashboard, other signed-in users to theirs, everyone else to the login page. */
  function LaunchTarget(user: Option<User>): string {
    if user.Some? then (if AuthContext.IsAdminUser(user) then "/admin" else "/dashboard") else "/login"
  }

  /** The words of the hero's carousel. */
  const HeroWords: seq<string> := [
    "Enterprise.", "Workforce.", "Intelligence.", "Innovation.", "Orchestration.",
    "Reasoning.", "Efficiency.", "Governance.", "Evolution.", "Productivity."
  ]

  /** The index after `n` ticks from the first word. */
  function AfterTicks(n: nat, count: nat): nat
    requires count > 0
  {
    if n == 0 then 0 else (AfterTicks(n - 1, count) + 1) % count
  }

  class TextCarousel {
    const words: seq<string>
    var index: nat

    predicate Valid()
      reads this
    {
      index < |words|
    }

    constructor (ws: seq<string>)
      requires |ws| > 0
      ensures words == ws && index == 0 && Valid()
    {
      words := ws;
      index := 0;
    }

    /** One tick of the interval: the next word, back to the first after the last. */
    method Tick()
      requires Valid()
      modifies this
      ensures index == (old(index) + 1) % |words|
      ensures Valid()
    {
      index := (index + 1) % |words|;
    }
  }

  // ---------------------------------------------------------------------------
  // Properties

  lemma {:induction false} MultipleAtLeast(d: int, count: int)
    requires d >= 1 && count > 0
    ensures d * count >= count
    decreases d
  {
    if d > 1 {
      MultipleAtLeast(d - 1, count);
      assert d * count == (d - 1) * count + count;
    }
  }

  /** Division leaves one remainder: a number written as `q * count + r` with `r < count` has remainder `r`. */
  lemma RemainderUnique(x: int, q: int, r: int, count: int)
    requires count > 0 && 0 <= r < count && x == q * count + r
    ensures x % count == r
  {
    var q', r' := x / count, x % count;
    assert x == q' * count + r';
    var d := q - q';
    assert d * count == q * count - q' * count;
    assert d * count == r' - r;
    if d >= 1 {
      MultipleAtLeast(d, count);
    } else if d <= -1 {
      MultipleAtLeast(-d, count);
    }
  }

  /** The remainder after the next number: one more, or back to 0 after `count - 1`. */
  lemma NextRemainder(m: nat, count: nat)
    requires count > 0
    ensures (m + 1) % count == if m % count == count - 1 then 0 else m % count + 1
  {
    var q, r := m / count, m % count;
    assert m == q * count + r;
    if r == count - 1 {
      RemainderUnique(m + 1, q + 1, 0, count);
    } else {
      RemainderUnique(m + 1, q, r + 1, count);
    }
  }

  /** After `n` ticks the carousel shows word `n mod count`: it visits the words in order, round and round. */
  lemma {:induction false} AfterTicksCycle(n: nat, count: nat)
    requires count > 0
    ensures AfterTicks(n, count) == n % count
    ensures AfterTicks(n, count) < count
  {
    if n > 0 {
      AfterTicksCycle(n - 1, count);
      NextRemainder(n - 1, count);
      var prev := AfterTicks(n - 1, count);
      assert AfterTicks(n, count) == (prev + 1) % count;
      if prev == count - 1 {
        RemainderUnique(prev + 1, 1, 0, count);
      } else {
        RemainderUnique(prev + 1, 0, prev + 1, count);
      }
    }
  }

  /** Every launch target is a page of the route table: the login page without a sidebar, or the dashboard that fits the user. */
  lemma LaunchRoutes(user: Option<User>)
    ensures user.None? ==> AppRoutes.Render(LaunchTarget(user)).page == Some(AppRoutes.LoginPage)
    ensures AuthContext.IsAdminUser(user) ==>
      AppRoutes.Render(LaunchTarget(user)) == AppRoutes.Screen(true, Some(AppRoutes.AdminDashboard), AppRoutes.Protected(true))
    ensures user.Some? && !AuthContext.IsAdminUser(user) ==>
      AppRoutes.Render(LaunchTarget(user)) == AppRoutes.Screen(true, Some(AppRoutes.UserDashboard), AppRoutes.Protected(false))
  {
    AppRoutes.RenderPathOf(AppRoutes.LoginPage);
    AppRoutes.RenderPathOf(AppRoutes.AdminDashboard);
    AppRoutes.RenderPathOf(AppRoutes.UserDashboard);
  }
}
