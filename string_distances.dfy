/**
  The string distance adapters and the factory that builds and flattens them.

  Each adapter turns a base distance over a string, a token list, a token set
  or a token multiset into a distance over two strings: it optionally
  simplifies both inputs, then tokenizes them, then asks the base distance.
  `CreateWithSimplifier` adds a simplifier to an existing adapter by merging
  it into the adapter's own simplifier slot where the adapter has one.
 */
module StringDistances {

  import opened Nullables
  import opened Simplifiers
  import opened Tokenizers

  /** A Distance<List<String>> object. */
  datatype ListBase = ListBase(id: nat)

  /** A Distance<Set<String>> object. */
  datatype SetBase = SetBase(id: nat)

  /** A Distance<Multiset<String>> object. */
  datatype MultisetBase = MultisetBase(id: nat)

  /**
    A Distance<String> object: either one that is not a StringDistance, or a
    StringDistance used as a Distance<String>.
   */
  datatype StringBase =
    | Raw(id: nat)
    | Adapted(adapter: StringDistance)

  /**
    A StringDistance object: one of the eight adapters, or any other
    implementation of the interface.
   */
  datatype StringDistance =
    | ForString(distance: Nullable<StringBase>)
    | ForStringWithSimplifier(stringDistance: StringBase, simplifier: Simplifier)
    | ForList(listDistance: ListBase, tokenizer: Tokenizer)
    | ForListWithSimplifier(listDistance: ListBase, simplifier: Simplifier, tokenizer: Tokenizer)
    | ForSet(setDistance: SetBase, tokenizer: Tokenizer)
    | ForSetWithSimplifier(setDistance: SetBase, simplifier: Simplifier, tokenizer: Tokenizer)
    | ForMultiset(multisetDistance: MultisetBase, tokenizer: Tokenizer)
    | ForMultisetWithSimplifier(multisetDistance: MultisetBase, simplifier: Simplifier, tokenizer: Tokenizer)
    | Other(id: nat)

  /**
    What the objects the adapters hold do when called: the tokenizers, the
    simplifiers, the base distances and the StringDistances that are not
    adapters. `Score` stands for the float the source returns.
   */
  datatype Env<Score> = Env(
    tokenizeToList: TokenizeToList,
    simplify: Simplify,
    stringDistance: (nat, string, string) -> Score,
    listDistance: (ListBase, seq<Token>, seq<Token>) -> Score,
    setDistance: (SetBase, set<Token>, set<Token>) -> Score,
    multisetDistance: (MultisetBase, multiset<Token>, multiset<Token>) -> Score,
    otherDistance: (nat, string, string) -> Score)

  // ---------------------------------------------------------------------------
  // Shapes

  /** The adapter holds a simplifier that `CreateWithSimplifier` merges into. */
  predicate HasMergeableSlot(sd: StringDistance)
  {
    sd.ForStringWithSimplifier? || sd.ForListWithSimplifier? || sd.ForSetWithSimplifier?
  }

  /** The adapter is one that `CreateWithSimplifier` flattens rather than wraps. */
  predicate Flattens(sd: StringDistance)
  {
    HasMergeableSlot(sd) || sd.ForString? || sd.ForList? || sd.ForSet?
  }

  /** Calling `distance` on the adapter never dereferences a null base distance. */
  predicate NullFree(sd: StringDistance)
  {
    match sd
    case ForString(Null) => false
    case ForString(NonNull(Adapted(inner))) => NullFree(inner)
    case ForStringWithSimplifier(Adapted(inner), _) => NullFree(inner)
    case _ => true
  }

  /** `NullFree` for a Distance<String>. */
  predicate BaseNullFree(d: StringBase)
  {
    d.Adapted? ==> NullFree(d.adapter)
  }

  /** The number of simplifier slots met on the way from the adapter down to its innermost base. */
  function SimplifierSlots(sd: StringDistance): nat
  {
    match sd
    case ForString(NonNull(Adapted(inner))) => SimplifierSlots(inner)
    case ForString(_) => 0
    case ForStringWithSimplifier(Adapted(inner), _) => 1 + SimplifierSlots(inner)
    case ForStringWithSimplifier(Raw(_), _) => 1
    case ForListWithSimplifier(_, _, _) => 1
    case ForSetWithSimplifier(_, _, _) => 1
    case ForMultisetWithSimplifier(_, _, _) => 1
    case _ => 0
  }

  /** The adapter holds a simplifier of its own. */
  predicate HasSimplifierSlot(sd: StringDistance)
  {
    HasMergeableSlot(sd) || sd.ForMultisetWithSimplifier?
  }

  /** The same adapter without its simplifier. */
  function WithoutSimplifier(sd: StringDistance): (r: StringDistance)
    requires HasSimplifierSlot(sd)
    ensures !HasSimplifierSlot(r) && SimplifierSlots(r) + 1 == SimplifierSlots(sd)
    ensures NullFree(sd) ==> NullFree(r)
    ensures Depth(r) < Depth(sd)
  {
    match sd
    case ForStringWithSimplifier(d, _) => ForString(NonNull(d))
    case ForListWithSimplifier(d, _, t) => ForList(d, t)
    case ForSetWithSimplifier(d, _, t) => ForSet(d, t)
    case ForMultisetWithSimplifier(d, _, t) => ForMultiset(d, t)
  }

  /** How many layers `Distance` may pass through: dropping a simplifier or unwrapping a base lowers it. */
  function Depth(sd: StringDistance): nat
  {
    match sd
    case ForString(NonNull(d)) => 1 + BaseDepth(d)
    case ForStringWithSimplifier(d, _) => 2 + BaseDepth(d)
    case ForListWithSimplifier(_, _, _) => 2
    case ForSetWithSimplifier(_, _, _) => 2
    case ForMultisetWithSimplifier(_, _, _) => 2
    case _ => 1
  }

  /** `Depth` for a Distance<String>. */
  function BaseDepth(d: StringBase): nat
  {
    match d
    case Raw(_) => 1
    case Adapted(sd) => 1 + Depth(sd)
  }

  // ---------------------------------------------------------------------------
  // The adapters' constructors. All but ForString reject null arguments.

  function NewForString(distance: Nullable<StringBase>): (r: StringDistance)
    ensures r.ForString? && r.distance == distance
  {
    ForString(distance)
  }

  function NewForStringWithSimplifier(distance: Nullable<StringBase>, simplifier: Nullable<Simplifier>): (r: StringDistance)
    requires distance.NonNull? && simplifier.NonNull?
    ensures r.ForStringWithSimplifier?
    ensures r.stringDistance == distance.get && r.simplifier == simplifier.get
  {
    ForStringWithSimplifier(distance.get, simplifier.get)
  }

  function NewForList(distance: Nullable<ListBase>, tokenizer: Nullable<Tokenizer>): (r: StringDistance)
    requires distance.NonNull? && tokenizer.NonNull?
    ensures r.ForList? && r.listDistance == distance.get && r.tokenizer == tokenizer.get
  {
    ForList(distance.get, tokenizer.get)
  }

  function NewForListWithSimplifier(distance: Nullable<ListBase>, simplifier: Nullable<Simplifier>, tokenizer: Nullable<Tokenizer>): (r: StringDistance)
    requires distance.NonNull? && simplifier.NonNull? && tokenizer.NonNull?
    ensures r.ForListWithSimplifier? && r.listDistance == distance.get
    ensures r.simplifier == simplifier.get && r.tokenizer == tokenizer.get
  {
    ForListWithSimplifier(distance.get, simplifier.get, tokenizer.get)
  }

  function NewForSet(distance: Nullable<SetBase>, tokenizer: Nullable<Tokenizer>): (r: StringDistance)
    requires distance.NonNull? && tokenizer.NonNull?
    ensures r.ForSet? && r.setDistance == distance.get && r.tokenizer == tokenizer.get
  {
    ForSet(distance.get, tokenizer.get)
  }

  function NewForSetWithSimplifier(distance: Nullable<SetBase>, simplifier: Nullable<Simplifier>, tokenizer: Nullable<Tokenizer>): (r: StringDistance)
    requires distance.NonNull? && simplifier.NonNull? && tokenizer.NonNull?
    ensures r.ForSetWithSimplifier? && r.setDistance == distance.get
    ensures r.simplifier == simplifier.get && r.tokenizer == tokenizer.get
  {
    ForSetWithSimplifier(distance.get, simplifier.get, tokenizer.get)
  }

  function NewForMultiset(distance: Nullable<MultisetBase>, tokenizer: Nullable<Tokenizer>): (r: StringDistance)
    requires distance.NonNull? && tokenizer.NonNull?
    ensures r.ForMultiset? && r.multisetDistance == distance.get && r.tokenizer == tokenizer.get
  {
    ForMultiset(distance.get, tokenizer.get)
  }

  function NewForMultisetWithSimplifier(distance: Nullable<MultisetBase>, simplifier: Nullable<Simplifier>, tokenizer: Nullable<Tokenizer>): (r: StringDistance)
    requires distance.NonNull? && simplifier.NonNull? && tokenizer.NonNull?
    ensures r.ForMultisetWithSimplifier? && r.multisetDistance == distance.get
    ensures r.simplifier == simplifier.get && r.tokenizer == tokenizer.get
  {
    ForMultisetWithSimplifier(distance.get, simplifier.get, tokenizer.get)
  }

  // ---------------------------------------------------------------------------
  // The factories

  function CreateForListDistance(distance: Nullable<ListBase>, tokenizer: Nullable<Tokenizer>): (r: StringDistance)
    requires distance.NonNull? && tokenizer.NonNull?
    ensures r == ForList(distance.get, tokenizer.get)
  {
    NewForList(distance, tokenizer)
  }

  function CreateForSimplifiedListDistance(distance: Nullable<ListBase>, simplifier: Nullable<Simplifier>, tokenizer: Nullable<Tokenizer>): (r: StringDistance)
    requires distance.NonNull? && simplifier.NonNull? && tokenizer.NonNull?
    ensures r == ForListWithSimplifier(distance.get, simplifier.get, tokenizer.get)
  {
    NewForListWithSimplifier(distance, simplifier, tokenizer)
  }

  function CreateForSetDistance(distance: Nullable<SetBase>, tokenizer: Nullable<Tokenizer>): (r: StringDistance)
    requires distance.NonNull? && tokenizer.NonNull?
    ensures r == ForSet(distance.get, tokenizer.get)
  {
    NewForSet(distance, tokenizer)
  }

  function CreateForSimplifiedSetDistance(distance: Nullable<SetBase>, simplifier: Nullable<Simplifier>, tokenizer: Nullable<Tokenizer>): (r: StringDistance)
    requires distance.NonNull? && simplifier.NonNull? && tokenizer.NonNull?
    ensures r == ForSetWithSimplifier(distance.get, simplifier.get, tokenizer.get)
  {
    NewForSetWithSimplifier(distance, simplifier, tokenizer)
  }

  function CreateForMultisetDistance(distance: Nullable<MultisetBase>, tokenizer: Nullable<Tokenizer>): (r: StringDistance)
    requires distance.NonNull? && tokenizer.NonNull?
    ensures r == ForMultiset(distance.get, tokenizer.get)
  {
    NewForMultiset(distance, tokenizer)
  }

  function CreateForSimplifiedMultisetDistance(distance: Nullable<MultisetBase>, simplifier: Nullable<Simplifier>, tokenizer: Nullable<Tokenizer>): (r: StringDistance)
    requires distance.NonNull? && simplifier.NonNull? && tokenizer.NonNull?
    ensures r == ForMultisetWithSimplifier(distance.get, simplifier.get, tokenizer.get)
  {
    NewForMultisetWithSimplifier(distance, simplifier, tokenizer)
  }

  /**
    create(distance): a StringDistance is returned as it is; any other
    Distance<String>, null included, is wrapped in a ForString.
   */
  function Create(distance: Nullable<StringBase>): (r: StringDistance)
    ensures r == ForString(distance) || NonNull(Adapted(r)) == distance
    ensures (distance.NonNull? && distance.get.Adapted?) <==> NonNull(Adapted(r)) == distance
  {
    if distance.NonNull? && distance.get.Adapted? then distance.get.adapter
    else NewForString(distance)
  }

  /**
    create(distance, simplifier). The simplifier must not be null (the
    adapters' constructors reject it, and chain is not given one), and the
    base that ends up in a ForStringWithSimplifier must not be null.
   */
  function CreateWithSimplifier(distance: Nullable<StringBase>, simplifier: Nullable<Simplifier>): (r: StringDistance)
    requires distance.NonNull? && simplifier.NonNull?
    requires distance.get != Adapted(ForString(Null))
    // the result always has a slot that the next call merges into
    ensures HasMergeableSlot(r)
    ensures BaseNullFree(distance.get) ==> NullFree(r)
    // a simplifier is added to the adapters that have a slot for one, and merged into the slot where there is one
    ensures distance.get.Adapted? && Flattens(distance.get.adapter) ==>
      var before := distance.get.adapter;
      && HasMergeableSlot(r)
      && r.simplifier == (if HasMergeableSlot(before) then Chain(simplifier.get, before.simplifier) else simplifier.get)
      && (before.ForString? || before.ForStringWithSimplifier? <==> r.ForStringWithSimplifier?)
      && (before.ForList? || before.ForListWithSimplifier? <==> r.ForListWithSimplifier?)
      && (before.ForSet? || before.ForSetWithSimplifier? <==> r.ForSetWithSimplifier?)
      && (before.ForString? ==> NonNull(r.stringDistance) == before.distance)
      && (before.ForStringWithSimplifier? ==> r.stringDistance == before.stringDistance)
      && (before.ForList? || before.ForListWithSimplifier? ==> r.listDistance == before.listDistance && r.tokenizer == before.tokenizer)
      && (before.ForSet? || before.ForSetWithSimplifier? ==> r.setDistance == before.setDistance && r.tokenizer == before.tokenizer)
    // everything else is wrapped whole, once more
    ensures !(distance.get.Adapted? && Flattens(distance.get.adapter)) ==> r == ForStringWithSimplifier(distance.get, simplifier.get)
    // a simplifier slot is added exactly when there is none to merge into
    ensures SimplifierSlots(r) == (if distance.get.Adapted? then SimplifierSlots(distance.get.adapter) else 0)
                                  + (if distance.get.Adapted? && HasMergeableSlot(distance.get.adapter) then 0 else 1)
  {
    match distance.get
    case Adapted(ForString(d)) =>
      NewForStringWithSimplifier(d, simplifier)
    case Adapted(ForStringWithSimplifier(d, s)) =>
      NewForStringWithSimplifier(NonNull(d), NonNull(Chain(simplifier.get, s)))
    case Adapted(ForList(d, t)) =>
      CreateForSimplifiedListDistance(NonNull(d), simplifier, NonNull(t))
    case Adapted(ForListWithSimplifier(d, s, t)) =>
      CreateForSimplifiedListDistance(NonNull(d), NonNull(Chain(simplifier.get, s)), NonNull(t))
    case Adapted(ForSet(d, t)) =>
      CreateForSimplifiedSetDistance(NonNull(d), simplifier, NonNull(t))
    case Adapted(ForSetWithSimplifier(d, s, t)) =>
      CreateForSimplifiedSetDistance(NonNull(d), NonNull(Chain(simplifier.get, s)), NonNull(t))
    case _ =>
      NewForStringWithSimplifier(distance, simplifier)
  }

  // ---------------------------------------------------------------------------
  // distance(a, b)

  /**
    The adapter's distance method. An adapter with a simplifier runs it on
    both inputs and then scores them as the same adapter without one would.
   */
  function Distance<Score>(env: Env<Score>, sd: StringDistance, a: string, b: string): (r: Score)
    requires NullFree(sd)
    ensures HasSimplifierSlot(sd) ==>
      r == Distance(env, WithoutSimplifier(sd), env.simplify(sd.simplifier, a), env.simplify(sd.simplifier, b))
    decreases Depth(sd)
  {
    match sd
    case ForString(d) =>
      BaseDistance(env, d.get, a, b)
    case ForStringWithSimplifier(d, s) =>
      BaseDistance(env, d, env.simplify(s, a), env.simplify(s, b))
    case ForList(d, t) =>
      env.listDistance(d, env.tokenizeToList(t, a), env.tokenizeToList(t, b))
    case ForListWithSimplifier(d, s, t) =>
      env.listDistance(d, env.tokenizeToList(t, env.simplify(s, a)), env.tokenizeToList(t, env.simplify(s, b)))
    case ForSet(d, t) =>
      env.setDistance(d, TokenizeToSet(env.tokenizeToList, t, a), TokenizeToSet(env.tokenizeToList, t, b))
    case ForSetWithSimplifier(d, s, t) =>
      env.setDistance(d, TokenizeToSet(env.tokenizeToList, t, env.simplify(s, a)),
                         TokenizeToSet(env.tokenizeToList, t, env.simplify(s, b)))
    case ForMultiset(d, t) =>
      env.multisetDistance(d, TokenizeToMultiset(env.tokenizeToList, t, a), TokenizeToMultiset(env.tokenizeToList, t, b))
    case ForMultisetWithSimplifier(d, s, t) =>
      env.multisetDistance(d, TokenizeToMultiset(env.tokenizeToList, t, env.simplify(s, a)),
                              TokenizeToMultiset(env.tokenizeToList, t, env.simplify(s, b)))
    case Other(id) =>
      env.otherDistance(id, a, b)
  }

  /**
    The distance method of a Distance<String>. A StringDistance used as one
    keeps its own pipeline, so a simplified adapter still simplifies first.
   */
  function BaseDistance<Score>(env: Env<Score>, d: StringBase, a: string, b: string): (r: Score)
    requires BaseNullFree(d)
    ensures d.Adapted? && HasSimplifierSlot(d.adapter) ==>
      r == BaseDistance(env, Adapted(WithoutSimplifier(d.adapter)),
                        env.simplify(d.adapter.simplifier, a), env.simplify(d.adapter.simplifier, b))
    decreases BaseDepth(d)
  {
    match d
    case Raw(id) => env.stringDistance(id, a, b)
    case Adapted(sd) => Distance(env, sd, a, b)
  }

}
