/** The three-valued lifecycle of an engine part (`AssemblyState`). */
module States {
  import opened Common

  /** Declared in this order; the C# enum gives them the values 0, 1 and 2. */
  datatype AssemblyState = Locked | Unlocked | Assembled

  /** The underlying enum value of a state: its position in the declaration. */
  function Ordinal(s: AssemblyState): (n: nat)
    ensures n < 3
  {
    match s
    case Locked => 0
    case Unlocked => 1
    case Assembled => 2
  }

  /** The state whose enum value is `n`, if there is one. */
  function FromOrdinal(n: nat): (r: Option<AssemblyState>)
    ensures r.Some? <==> n < 3
    ensures r.Some? ==> Ordinal(r.value) == n
  {
    if n == 0 then Some(Locked)
    else if n == 1 then Some(Unlocked)
    else if n == 2 then Some(Assembled)
    else None
  }

  /** Exactly three states: the enum values are 0, 1, 2 and each names one state. */
  lemma OrdinalRoundTrip(s: AssemblyState)
    ensures FromOrdinal(Ordinal(s)) == Some(s)
    ensures forall t: AssemblyState :: Ordinal(t) == Ordinal(s) ==> t == s
  {
  }

  /** The default value of the enum (value 0), which every part holds before assembly starts. */
  function Default(): (s: AssemblyState)
    ensures Ordinal(s) == 0
    ensures FromOrdinal(0) == Some(s)
  {
    Locked
  }

  /** Unlocked is the only state from which a part may be assembled. */
  predicate ReadyForAssembly(s: AssemblyState)
  {
    s == Unlocked
  }

  /** Assembled is the final state. */
  predicate IsFinal(s: AssemblyState)
  {
    s == Assembled
  }
}
