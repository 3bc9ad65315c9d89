/** What a stack machine yields and in how many steps it does so, put one after the other. */
module Flows {

  datatype Flow<T> = Flow(items: seq<T>, steps: nat)

  ghost function Then<T>(a: Flow<T>, b: Flow<T>): Flow<T> {
    Flow(a.items + b.items, a.steps + b.steps)
  }

  lemma ThenAssoc<T>(a: Flow<T>, b: Flow<T>, c: Flow<T>)
    ensures Then(Then(a, b), c) == Then(a, Then(b, c))
  {
    assert a.items + b.items + c.items == a.items + (b.items + c.items);
  }

  lemma NothingThen<T>(a: Flow<T>)
    ensures Then(Flow([], 0), a) == a && Then(a, Flow([], 0)) == a
  {
    assert [] + a.items == a.items && a.items + [] == a.items;
  }
}
