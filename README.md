# SimMetrics string distance composition, in Dafny

This project models the part of SimMetrics that builds a distance over two
strings out of smaller pieces: a base distance over a string, a token list, a
token set or a token multiset; an optional simplifier run on both inputs; and a
tokenizer that turns each input into tokens.

- `StringDistances` (`string_distances.dfy`) holds the eight adapters
  (`ForString`, `ForStringWithSimplifier`, `ForList`, `ForListWithSimplifier`,
  `ForSet`, `ForSetWithSimplifier`, `ForMultiset`, `ForMultisetWithSimplifier`)
  as one datatype with a ninth variant, `Other`, for any other StringDistance.
  It also holds their null-checking constructors (`New…`), the six factories,
  `create(distance)` (`Create`), and `create(distance, simplifier)`
  (`CreateWithSimplifier`). That last one merges the new simplifier into the
  adapter's slot with `Chain(new, old)` instead of wrapping once more. The
  getters are the datatype's destructors. `Distance` is each adapter's
  `distance(a, b)`.
- A `Distance<String>` is a `StringBase`. It is either `Raw(id)`, a distance
  that is not a StringDistance, or `Adapted(sd)`, a StringDistance used as a
  `Distance<String>`. That is how the fallback of `create(distance, simplifier)`
  puts a whole adapter inside a `ForStringWithSimplifier`.
- Java references that may be null are `Nullable<T>`. A field that the
  constructor guards with `requireNonNull` has the non-null type, and the
  check is that constructor's `requires`. `ForString` performs no check, so
  its field stays `Nullable`. `NullFree` says that calling `distance` never
  dereferences a null base.
- `Tokenizers` (`tokenizers.dfy`) holds the derived views: the multiset view
  is `multiset(tokens)` and the set view is `set x | x in tokens`. Both are
  built from the list returned by `tokenizeToList`.
- Tokenizers, simplifiers, base distances and other StringDistances are
  objects with an identity. What they compute is supplied by an `Env<Score>`
  of total functions, so they stay uninterpreted. `Score` stands for the float
  the source returns. `Chain(first, second)` is an uninterpreted constructor.
  Three semantic lemmas assume `ChainRunsFirstArgumentFirst` in their
  `requires`: `CreateWithSimplifierSimplifiesFirst`, `AddingTwiceIsAddingChain`
  and `AddSimplifiersSimplifiesNewestFirst`.

Unlike the list and set adapters, the two multiset adapters have no arm in
`create(distance, simplifier)`, so they take the generic fallback and are
wrapped whole in a `ForStringWithSimplifier`. `MultisetAdapterIsWrappedOnce`
states the consequence: a multiset adapter gains one extra simplifier slot, and
later calls merge into that outer slot.

On ordering, the code puts the newest simplifier first in the chain. In a naive
nesting, the outermost (newest) simplifier also sees the raw input first. So,
when chain runs its first argument first, the simplifier added last runs first
(`AddSimplifiersSimplifiesNewestFirst`, `AddingTwiceIsAddingChain`). How a
builder orders its simplify calls is not modelled here.

## Model

| member | source | states |
|---|---|---|
| `Tokenizers.TokenizeToMultiset` | simmetrics-core/src/main/java/com/github/mpkorstanje/simmetrics/tokenizers/Tokenizer.java:52-54 | each token's count in the multiset view is its number of occurrences in the token list; the cardinality is the list's length; an empty list gives an empty multiset |
| `Tokenizers.TokenizeToSet` | simmetrics-core/src/main/java/com/github/mpkorstanje/simmetrics/tokenizers/Tokenizer.java:62-64 | a token is in the set view iff it is in the token list; the set is no larger than the list, and exactly as large iff the list has no duplicates; an empty list gives an empty set |
| `Tokenizers.MultisetCountsOccurrences` | simmetrics-core/src/main/java/com/github/mpkorstanje/simmetrics/tokenizers/Tokenizer.java:52-54 | the multiset built from a list counts every token as often as it occurs in it (checked against a recursive count) |
| `Tokenizers.DistinctCardinality` | simmetrics-core/src/main/java/com/github/mpkorstanje/simmetrics/tokenizers/Tokenizer.java:62-64 | deduplicating a list never grows it, and leaves its size unchanged exactly when no token occurs twice |
| `Tokenizers.SupportOfMultisetIsSet` | simmetrics-core/src/main/java/com/github/mpkorstanje/simmetrics/tokenizers/Tokenizer.java:52-64 | the distinct elements of the multiset view are exactly the set view |
| `StringDistances.NewForString` | simmetrics-core/src/main/java/com/github/mpkorstanje/simmetrics/builders/StringDistances.java:318-320 | ForString accepts any distance, null included, and holds it unchanged |
| `StringDistances.NewForStringWithSimplifier` | simmetrics-core/src/main/java/com/github/mpkorstanje/simmetrics/builders/StringDistances.java:344-350 | rejects a null distance or simplifier; otherwise holds both unchanged |
| `StringDistances.NewForList` | simmetrics-core/src/main/java/com/github/mpkorstanje/simmetrics/builders/StringDistances.java:101-108 | rejects a null distance or tokenizer; otherwise holds both unchanged |
| `StringDistances.NewForListWithSimplifier` | simmetrics-core/src/main/java/com/github/mpkorstanje/simmetrics/builders/StringDistances.java:134-143 | rejects a null distance, simplifier or tokenizer; otherwise holds all three unchanged |
| `StringDistances.NewForSet` | simmetrics-core/src/main/java/com/github/mpkorstanje/simmetrics/builders/StringDistances.java:174-180 | rejects a null distance or tokenizer; otherwise holds both unchanged |
| `StringDistances.NewForSetWithSimplifier` | simmetrics-core/src/main/java/com/github/mpkorstanje/simmetrics/builders/StringDistances.java:208-216 | rejects a null distance, simplifier or tokenizer; otherwise holds all three unchanged |
| `StringDistances.NewForMultiset` | simmetrics-core/src/main/java/com/github/mpkorstanje/simmetrics/builders/StringDistances.java:247-253 | rejects a null distance or tokenizer; otherwise holds both unchanged |
| `StringDistances.NewForMultisetWithSimplifier` | simmetrics-core/src/main/java/com/github/mpkorstanje/simmetrics/builders/StringDistances.java:281-289 | rejects a null distance, simplifier or tokenizer; otherwise holds all three unchanged |
| `StringDistances.CreateForListDistance` | simmetrics-core/src/main/java/com/github/mpkorstanje/simmetrics/builders/StringDistances.java:75-77 | returns exactly a ForList with the given distance and tokenizer |
| `StringDistances.CreateForSimplifiedListDistance` | simmetrics-core/src/main/java/com/github/mpkorstanje/simmetrics/builders/StringDistances.java:70-73 | returns exactly a ForListWithSimplifier with the given distance, simplifier and tokenizer |
| `StringDistances.CreateForSetDistance` | simmetrics-core/src/main/java/com/github/mpkorstanje/simmetrics/builders/StringDistances.java:84-86 | returns exactly a ForSet with the given distance and tokenizer |
| `StringDistances.CreateForSimplifiedSetDistance` | simmetrics-core/src/main/java/com/github/mpkorstanje/simmetrics/builders/StringDistances.java:79-82 | returns exactly a ForSetWithSimplifier with the given distance, simplifier and tokenizer |
| `StringDistances.CreateForMultisetDistance` | simmetrics-core/src/main/java/com/github/mpkorstanje/simmetrics/builders/StringDistances.java:93-95 | returns exactly a ForMultiset with the given distance and tokenizer |
| `StringDistances.CreateForSimplifiedMultisetDistance` | simmetrics-core/src/main/java/com/github/mpkorstanje/simmetrics/builders/StringDistances.java:88-91 | returns exactly a ForMultisetWithSimplifier with the given distance, simplifier and tokenizer |
| `StringDistances.Create` | simmetrics-core/src/main/java/com/github/mpkorstanje/simmetrics/builders/StringDistances.java:38-44 | the result is the argument itself exactly when the argument is a StringDistance, and otherwise a ForString holding the argument (null included) |
| `StringDistances.CreateWithSimplifier` | simmetrics-core/src/main/java/com/github/mpkorstanje/simmetrics/builders/StringDistances.java:46-68 | string, list and set adapters keep their kind, base distance and tokenizer, and get one simplifier slot: the new simplifier, or chain(new, old) where a slot exists; every other distance, the multiset adapters included, is wrapped whole in a ForStringWithSimplifier; the result always has a slot the next call merges into; a slot is added exactly when there is none to merge into; the result is null-free when the argument is |
| `StringDistanceProperties.CreateIsIdempotent` | simmetrics-core/src/main/java/com/github/mpkorstanje/simmetrics/builders/StringDistances.java:38-44 | create(create(d)) == create(d) |
| `StringDistanceProperties.CreatePreservesDistance` | simmetrics-core/src/main/java/com/github/mpkorstanje/simmetrics/builders/StringDistances.java:38-44 | for a non-null d, create(d) measures exactly what d measures on every pair of strings |
| `StringDistanceProperties.CreateWithSimplifierSimplifiesFirst` | simmetrics-core/src/main/java/com/github/mpkorstanje/simmetrics/builders/StringDistances.java:46-68 | if chain runs its first argument first, the flattened result gives the same score as the naive wrapping ForStringWithSimplifier(d, s), that is, d on the simplified inputs |
| `StringDistanceProperties.AddingTwiceIsAddingChain` | simmetrics-core/src/main/java/com/github/mpkorstanje/simmetrics/builders/StringDistances.java:46-68 | if chain runs its first argument first, adding s1 then s2 scores the same as adding chain(s2, s1) once, from any starting adapter |
| `StringDistanceProperties.AddSimplifiersMergesIntoOneSlot` | simmetrics-core/src/main/java/com/github/mpkorstanje/simmetrics/builders/StringDistances.java:46-68 | after the first create(_, s), any number of further calls keep the variant, base, tokenizer and slot count, and only chain each new simplifier in front of the slot's simplifier |
| `StringDistanceProperties.BareAdapterGetsOneChain` | simmetrics-core/src/main/java/com/github/mpkorstanje/simmetrics/builders/StringDistances.java:46-64 | from a ForString, ForList or ForSet, n calls give the matching …WithSimplifier holding the same base and tokenizer and the right-nested chain of the n simplifiers, newest first |
| `StringDistanceProperties.MultisetAdapterIsWrappedOnce` | simmetrics-core/src/main/java/com/github/mpkorstanje/simmetrics/builders/StringDistances.java:65-67 | a ForMultiset or ForMultisetWithSimplifier is wrapped whole by the first call, and after n calls sits in one ForStringWithSimplifier holding the chain of the n simplifiers, with one more slot than it had |
| `StringDistanceProperties.AddSimplifiersSimplifiesNewestFirst` | simmetrics-core/src/main/java/com/github/mpkorstanje/simmetrics/builders/StringDistances.java:46-68 | if chain runs its first argument first, the adapter built by n calls scores as the starting adapter does on inputs run through all n simplifiers, the last added first |
| `StringDistances.Distance` | simmetrics-core/src/main/java/com/github/mpkorstanje/simmetrics/builders/StringDistances.java:110-113 | the eight `distance(a, b)` methods (also :146-149, :183-185, :219-222, :256-258, :292-295, :323-325, :353-355): bare adapters tokenize both inputs with the list, set or multiset view and ask the base; every adapter with a simplifier (string, list, set, multiset) runs the same simplifier on both inputs and then scores them exactly as the same adapter without a simplifier would, so simplification precedes tokenization; requires `NullFree`, since a `ForString(null)` would throw a NullPointerException; its meaning is further fixed by `DistanceIsSymmetric` and `CreatePreservesDistance` |
| `StringDistances.BaseDistance` | simmetrics-core/src/main/java/com/github/mpkorstanje/simmetrics/builders/StringDistances.java:323-325 | the call into a `Distance<String>`: a plain base is asked directly, and a StringDistance used as a base scores by its own `distance`, so a simplified adapter in base position still simplifies both inputs first and then scores as the same adapter without its simplifier (its contract); requires `BaseNullFree`; `CreatePreservesDistance` proves that `create(d)` scores exactly as `BaseDistance` of `d`, and `CreateWithSimplifierSimplifiesFirst` states the flattening in its terms |
| `StringDistanceProperties.DistanceIsSymmetric` | simmetrics-core/src/main/java/com/github/mpkorstanje/simmetrics/builders/StringDistances.java:352-355 | every adapter runs both inputs through the same pipeline, so over symmetric bases it is symmetric at any nesting depth |

## Left out

- Concrete metrics, simplifiers and tokenizers, and float arithmetic. Their implementations are not part of this model, so base distances, `simplify` and `tokenizeToList` are uninterpreted functions, and a score is an abstract `Score`.
- The body of `Simplifiers.chain` is not part of this model. Only the argument order `chain(new, old)` is modelled. The semantic lemmas that need an order take it as a hypothesis.
- Tokenizers that override `tokenizeToSet` or `tokenizeToMultiset` are not modelled: every tokenizer uses the interface's default views, derived from its `tokenizeToList`.
- StringDistances.CreateWithSimplifier: requires a non-null simplifier on every path. On the chaining paths the null would reach `chain`, whose handling of null is not part of this model.
- Null strings passed to `distance(a, b)` are not modelled. Strings are plain `seq<char>`, and tokens are non-null because the tokenizer interface forbids null tokens.
- The `toString` descriptions are left out. They have no effect on any score.
- Filter and transform decorators of tokenizers live in `Tokenizers.java`, which is not part of this model.
- Caching, the example programs and the test harnesses are left out. The tests only serve as evidence for the behaviour modelled here.
