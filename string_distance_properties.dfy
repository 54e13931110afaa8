/**
  Properties of the adapters and of the factory: what create(distance) and
  create(distance, simplifier) preserve, what repeated calls of the latter
  build, and what the adapters compute.
 */
module StringDistanceProperties {

  import opened Nullables
  import opened Simplifiers
  import opened StringDistances

  /** Adding a simplifier to an adapter, as create(adapter, simplifier) does. */
  function AddSimplifier(sd: StringDistance, simplifier: Simplifier): (r: StringDistance)
    requires sd != ForString(Null)
    ensures HasMergeableSlot(r)
  {
    CreateWithSimplifier(NonNull(Adapted(sd)), NonNull(simplifier))
  }

  /** Calling create(_, s) once for every `s` of `simplifiers`, in order, starting from `sd`. */
  function AddSimplifiers(sd: StringDistance, simplifiers: seq<Simplifier>): (r: StringDistance)
    requires sd != ForString(Null)
    ensures r != ForString(Null)
    ensures simplifiers != [] ==> HasMergeableSlot(r)
    decreases |simplifiers|
  {
    if simplifiers == [] then sd
    else AddSimplifier(AddSimplifiers(sd, simplifiers[..|simplifiers| - 1]), simplifiers[|simplifiers| - 1])
  }

  /** The same adapter with `simplifier` in its slot. */
  function ReplaceSimplifier(sd: StringDistance, simplifier: Simplifier): (r: StringDistance)
    requires HasMergeableSlot(sd)
    ensures HasMergeableSlot(r) && r.simplifier == simplifier
    ensures SimplifierSlots(r) == SimplifierSlots(sd)
  {
    match sd
    case ForStringWithSimplifier(d, _) => ForStringWithSimplifier(d, simplifier)
    case ForListWithSimplifier(d, _, t) => ForListWithSimplifier(d, simplifier, t)
    case ForSetWithSimplifier(d, _, t) => ForSetWithSimplifier(d, simplifier, t)
  }

  /** `existing` with every simplifier of `added` chained in front of it, the last added outermost. */
  function ChainOnto(existing: Simplifier, added: seq<Simplifier>): Simplifier
    decreases |added|
  {
    if added == [] then existing
    else Chain(added[|added| - 1], ChainOnto(existing, added[..|added| - 1]))
  }

  /** Runs the simplifiers of `added` on `input`, the last added first. */
  function SimplifyAll(simplify: Simplify, added: seq<Simplifier>, input: string): string
    decreases |added|
  {
    if added == [] then input
    else SimplifyAll(simplify, added[..|added| - 1], simplify(added[|added| - 1], input))
  }

  // ---------------------------------------------------------------------------
  // create(distance)

  /** create(create(d)) == create(d). */
  lemma CreateIsIdempotent(distance: Nullable<StringBase>)
    ensures Create(NonNull(Adapted(Create(distance)))) == Create(distance)
  {
  }

  /** The adapter create(d) measures exactly what d measures. */
  lemma CreatePreservesDistance<Score>(env: Env<Score>, distance: Nullable<StringBase>, a: string, b: string)
    requires distance.NonNull? && BaseNullFree(distance.get)
    ensures NullFree(Create(distance))
    ensures Distance(env, Create(distance), a, b) == BaseDistance(env, distance.get, a, b)
  {
  }

  // ---------------------------------------------------------------------------
  // create(distance, simplifier)

  /**
    If chain runs its first argument first, flattening changes nothing: the
    result measures what the old distance measures on the simplified inputs,
    exactly as the naive wrapping ForStringWithSimplifier(distance, simplifier) would.
   */
  lemma CreateWithSimplifierSimplifiesFirst<Score>(env: Env<Score>, distance: Nullable<StringBase>, simplifier: Nullable<Simplifier>, a: string, b: string)
    requires ChainRunsFirstArgumentFirst(env.simplify)
    requires distance.NonNull? && simplifier.NonNull? && distance.get != Adapted(ForString(Null))
    requires BaseNullFree(distance.get)
    ensures NullFree(CreateWithSimplifier(distance, simplifier))
    ensures Distance(env, CreateWithSimplifier(distance, simplifier), a, b)
         == BaseDistance(env, distance.get, env.simplify(simplifier.get, a), env.simplify(simplifier.get, b))
    ensures Distance(env, CreateWithSimplifier(distance, simplifier), a, b)
         == Distance(env, ForStringWithSimplifier(distance.get, simplifier.get), a, b)
  {
  }

  /**
    If chain runs its first argument first, adding s1 and then s2 measures
    the same as adding the single chain(s2, s1): the simplifier added last
    runs first on the raw inputs.
   */
  lemma AddingTwiceIsAddingChain<Score>(env: Env<Score>, sd: StringDistance, s1: Simplifier, s2: Simplifier, a: string, b: string)
    requires ChainRunsFirstArgumentFirst(env.simplify)
    requires NullFree(sd)
    ensures NullFree(AddSimplifier(AddSimplifier(sd, s1), s2)) && NullFree(AddSimplifier(sd, Chain(s2, s1)))
    ensures Distance(env, AddSimplifier(AddSimplifier(sd, s1), s2), a, b)
         == Distance(env, AddSimplifier(sd, Chain(s2, s1)), a, b)
  {
  }

  /**
    After the first call, every further create(_, s) keeps the variant, the
    base distance, the tokenizer and the number of simplifier slots, and only
    chains `s` in front of the one simplifier.
   */
  lemma {:induction false} AddSimplifiersMergesIntoOneSlot(sd: StringDistance, simplifiers: seq<Simplifier>)
    requires sd != ForString(Null) && simplifiers != []
    ensures var first := AddSimplifier(sd, simplifiers[0]);
      && AddSimplifiers(sd, simplifiers) == ReplaceSimplifier(first, ChainOnto(first.simplifier, simplifiers[1..]))
      && SimplifierSlots(AddSimplifiers(sd, simplifiers)) == SimplifierSlots(first)
  {
    var first := AddSimplifier(sd, simplifiers[0]);
    var n := |simplifiers|;
    if n == 1 {
      assert simplifiers[..0] == [];
      assert simplifiers[1..] == [];
    } else {
      var prefix := simplifiers[..n - 1];
      AddSimplifiersMergesIntoOneSlot(sd, prefix);
      assert prefix[0] == simplifiers[0];
      var prev := AddSimplifiers(sd, prefix);
      assert prev == ReplaceSimplifier(first, ChainOnto(first.simplifier, prefix[1..]));
      assert simplifiers[1..][..n - 2] == prefix[1..];
      assert simplifiers[1..][n - 2] == simplifiers[n - 1];
      assert ChainOnto(first.simplifier, simplifiers[1..])
          == Chain(simplifiers[n - 1], ChainOnto(first.simplifier, prefix[1..]));
    }
  }

  /**
    Starting from a bare string, list or set adapter, n calls of create(_, s)
    give the matching adapter with a simplifier whose one slot holds the
    chain of the n simplifiers, newest first.
   */
  lemma BareAdapterGetsOneChain(sd: StringDistance, simplifiers: seq<Simplifier>)
    requires sd.ForString? || sd.ForList? || sd.ForSet?
    requires sd != ForString(Null) && simplifiers != []
    ensures var r := AddSimplifiers(sd, simplifiers);
      var chain := ChainOnto(simplifiers[0], simplifiers[1..]);
      && (sd.ForString? ==> r == ForStringWithSimplifier(sd.distance.get, chain))
      && (sd.ForList? ==> r == ForListWithSimplifier(sd.listDistance, chain, sd.tokenizer))
      && (sd.ForSet? ==> r == ForSetWithSimplifier(sd.setDistance, chain, sd.tokenizer))
  {
    AddSimplifiersMergesIntoOneSlot(sd, simplifiers);
  }

  /**
    The multiset adapters are wrapped whole by the first call, so they keep
    their own slots and gain one more, and later calls merge into that one.
   */
  lemma MultisetAdapterIsWrappedOnce(sd: StringDistance, simplifiers: seq<Simplifier>)
    requires sd.ForMultiset? || sd.ForMultisetWithSimplifier?
    requires simplifiers != []
    ensures var r := AddSimplifiers(sd, simplifiers);
      && r == ForStringWithSimplifier(Adapted(sd), ChainOnto(simplifiers[0], simplifiers[1..]))
      && SimplifierSlots(r) == SimplifierSlots(sd) + 1
  {
    AddSimplifiersMergesIntoOneSlot(sd, simplifiers);
  }

  /**
    If chain runs its first argument first, the adapter built by repeated
    calls measures what `sd` measures on inputs run through every added
    simplifier, the newest first.
   */
  lemma {:induction false} AddSimplifiersSimplifiesNewestFirst<Score>(env: Env<Score>, sd: StringDistance, simplifiers: seq<Simplifier>, a: string, b: string)
    requires ChainRunsFirstArgumentFirst(env.simplify)
    requires NullFree(sd)
    ensures NullFree(AddSimplifiers(sd, simplifiers))
    ensures Distance(env, AddSimplifiers(sd, simplifiers), a, b)
         == Distance(env, sd, SimplifyAll(env.simplify, simplifiers, a), SimplifyAll(env.simplify, simplifiers, b))
    decreases |simplifiers|
  {
    if simplifiers != [] {
      var n := |simplifiers|;
      var prefix := simplifiers[..n - 1];
      var last := simplifiers[n - 1];
      var prev := AddSimplifiers(sd, prefix);
      AddSimplifiersSimplifiesNewestFirst(env, sd, prefix, env.simplify(last, a), env.simplify(last, b));
      AddSimplifiersSimplifiesNewestFirst(env, sd, prefix, a, b);
      CreateWithSimplifierSimplifiesFirst(env, NonNull(Adapted(prev)), NonNull(last), a, b);
    }
  }

  // ---------------------------------------------------------------------------
  // distance(a, b)

  /** Every base distance and every other StringDistance gives the same score both ways round. */
  ghost predicate SymmetricBases<Score>(env: Env<Score>)
  {
    && (forall id, a, b :: env.stringDistance(id, a, b) == env.stringDistance(id, b, a))
    && (forall d, a, b :: env.listDistance(d, a, b) == env.listDistance(d, b, a))
    && (forall d, a, b :: env.setDistance(d, a, b) == env.setDistance(d, b, a))
    && (forall d, a, b :: env.multisetDistance(d, a, b) == env.multisetDistance(d, b, a))
    && (forall id, a, b :: env.otherDistance(id, a, b) == env.otherDistance(id, b, a))
  }

  /**
    Every adapter runs both inputs through the same pipeline, so over
    symmetric bases it is symmetric too, however deeply it is nested.
   */
  lemma {:induction false} DistanceIsSymmetric<Score>(env: Env<Score>, sd: StringDistance, a: string, b: string)
    requires SymmetricBases(env) && NullFree(sd)
    ensures Distance(env, sd, a, b) == Distance(env, sd, b, a)
  {
    match sd
    case ForString(NonNull(Adapted(inner))) =>
      DistanceIsSymmetric(env, inner, a, b);
    case ForStringWithSimplifier(Adapted(inner), s) =>
      DistanceIsSymmetric(env, inner, env.simplify(s, a), env.simplify(s, b));
    case _ =>
  }

}
