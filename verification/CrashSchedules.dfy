/**
 Runs of a program that is started again and again on one durable state and killed between
 any two of its writes. `run` lists the durable states one start passes through.
 */
module CrashSchedules {

  /** The process dies after `writes` durable writes of a start in the circumstances `env`. */
  datatype Cut<T> = Cut(env: T, writes: nat)

  function Last<D>(d: D, states: seq<D>): D {
    if states == [] then d else states[|states| - 1]
  }

  function CutOff<D, T>(run: (D, T) -> seq<D>, d: D, cut: Cut<T>): D {
    var states := run(d, cut.env);
    Last(d, states[..if cut.writes <= |states| then cut.writes else |states|])
  }

  function AfterCuts<D, T>(run: (D, T) -> seq<D>, d: D, cuts: seq<Cut<T>>): D
    decreases |cuts|
  {
    if cuts == [] then d else AfterCuts(run, CutOff(run, d, cuts[0]), cuts[1..])
  }

  /** From a state with `inv`, no write of any start breaks it or changes the outcome. */
  ghost predicate Keeps<D(!new), T(!new), O>(run: (D, T) -> seq<D>, inv: D -> bool, outcome: D -> O) {
    forall d, t, i :: inv(d) && 0 <= i < |run(d, t)| ==> inv(run(d, t)[i]) && outcome(run(d, t)[i]) == outcome(d)
  }

  /** What no single write changes, no crash schedule changes. */
  lemma {:induction false} CutsKeepOutcome<D(!new), T(!new), O>(
    run: (D, T) -> seq<D>, inv: D -> bool, outcome: D -> O, d: D, cuts: seq<Cut<T>>)
    requires Keeps(run, inv, outcome) && inv(d)
    ensures inv(AfterCuts(run, d, cuts)) && outcome(AfterCuts(run, d, cuts)) == outcome(d)
    decreases |cuts|
  {
    if cuts != [] {
      var states := run(d, cuts[0].env);
      var writes := if cuts[0].writes <= |states| then cuts[0].writes else |states|;
      assert writes > 0 ==> CutOff(run, d, cuts[0]) == states[writes - 1];
      CutsKeepOutcome(run, inv, outcome, CutOff(run, d, cuts[0]), cuts[1..]);
    }
  }
}
