/** Entities of lib/types.ts, as values. */
module Types {

  datatype Option<+T> = None | Some(value: T)

  /** One line of dialogue: its text and the id of its speaker. */
  datatype Conversation = Conversation(text: string, speakerId: int)

  /** A scenario: a summary and its ordered lines. */
  datatype Scenario = Scenario(summary: string, conversation: seq<Conversation>)

  /** A scenario collection in the order `Object.entries` yields it. */
  type Entry = (string, Scenario)
  type ScenariosData = seq<Entry>

  /** The keys of a JavaScript object are distinct. */
  predicate DistinctIds(data: ScenariosData)
  {
    forall i, j :: 0 <= i < j < |data| ==> data[i].0 != data[j].0
  }

  /** `scenarios[id]`: the scenario filed under `id`, if any. */
  function Lookup(data: ScenariosData, id: string): (r: Option<Scenario>)
    ensures r.None? <==> forall i :: 0 <= i < |data| ==> data[i].0 != id
    ensures r.Some? ==> exists i :: 0 <= i < |data| && data[i] == (id, r.value)
    ensures DistinctIds(data) ==>
      forall i :: 0 <= i < |data| && data[i].0 == id ==> r == Some(data[i].1)
  {
    if |data| == 0 then None
    else if data[0].0 == id then Some(data[0].1)
    else
      var r := Lookup(data[1..], id);
      assert r.Some? ==> exists i :: 0 <= i < |data[1..]| && data[1..][i] == (id, r.value);
      assert forall i :: 1 <= i < |data| ==> data[i] == data[1..][i - 1];
      r
  }

  /** `r` is `q` with some elements left out, the rest in their order. */
  predicate Subsequence<T(==)>(r: seq<T>, q: seq<T>)
    decreases |q|
  {
    if r == [] then true
    else if q == [] then false
    else if r[0] == q[0] then Subsequence(r[1..], q[1..])
    else Subsequence(r, q[1..])
  }

  /** Dropping the first element of `q` keeps a subsequence a subsequence of `q`. */
  lemma {:induction false} SubsequenceOfTail<T>(r: seq<T>, q: seq<T>)
    requires q != [] && Subsequence(r, q[1..])
    ensures Subsequence(r, q)
    decreases |q|, 1
  {
    if r != [] && r[0] == q[0] {
      SubsequenceDropHead(r, q[1..]);
    }
  }

  /** Dropping the first element of `r` keeps it a subsequence of `q`. */
  lemma {:induction false} SubsequenceDropHead<T>(r: seq<T>, q: seq<T>)
    requires r != [] && Subsequence(r, q)
    ensures Subsequence(r[1..], q)
    decreases |q| + 1, 0
  {
    if r[0] == q[0] {
      SubsequenceOfTail(r[1..], q);
    } else {
      SubsequenceDropHead(r, q[1..]);
      SubsequenceOfTail(r[1..], q);
    }
  }
}
