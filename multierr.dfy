/** Error values as the Go code builds them with go.uber.org/multierr.
    A single Go `error` is an Option<string> (None is nil); an aggregated
    error is the sequence of the messages appended into it, in order, and
    the empty sequence is nil. */
module MultiErr {

  datatype Option<T> = None | Some(value: T)

  /** A constructor that either yields a value or an aggregated error. */
  datatype Result<T> = Ok(value: T) | Err(errors: seq<string>)

  /** The messages of the non-nil errors among `errs`, in order: what a
      chain of `multierr.AppendInto(&acc, e)` calls leaves in `acc`. */
  function Combine(errs: seq<Option<string>>): (r: seq<string>)
    ensures |r| <= |errs|
  {
    if errs == [] then []
    else (if errs[0].Some? then [errs[0].value] else []) + Combine(errs[1..])
  }

  /** The aggregate is nil exactly when every appended error is nil. */
  lemma {:induction false} CombineEmptyIff(errs: seq<Option<string>>)
    ensures Combine(errs) == [] <==> forall i :: 0 <= i < |errs| ==> errs[i].None?
  {
    if errs != [] {
      CombineEmptyIff(errs[1..]);
      assert forall i :: 1 <= i < |errs| ==> errs[i] == errs[1..][i - 1];
    }
  }

  /** The messages of one error: none for nil. */
  function Entries(e: Option<string>): seq<string> {
    if e.Some? then [e.value] else []
  }

  lemma CombineSingle(e: Option<string>)
    ensures Combine([e]) == Entries(e)
  {
  }

  lemma CombinePair(a: Option<string>, b: Option<string>)
    ensures Combine([a, b]) == Entries(a) + Entries(b)
  {
    assert [a, b][1..] == [b];
    assert Combine([b]) == Entries(b);
  }

  /** Appending two batches of errors aggregates batch by batch. */
  lemma {:induction false} CombineConcat(a: seq<Option<string>>, b: seq<Option<string>>)
    ensures Combine(a + b) == Combine(a) + Combine(b)
  {
    if a != [] {
      assert (a + b)[1..] == a[1..] + b;
      CombineConcat(a[1..], b);
    } else {
      assert a + b == b;
    }
  }

  /** When every appended error is non-nil, nothing is dropped: the
      aggregate has one message per error, in the same order. */
  lemma {:induction false} CombineAllSome(errs: seq<Option<string>>)
    requires forall i :: 0 <= i < |errs| ==> errs[i].Some?
    ensures |Combine(errs)| == |errs|
    ensures forall i :: 0 <= i < |errs| ==> Combine(errs)[i] == errs[i].value
  {
    if errs != [] {
      CombineAllSome(errs[1..]);
    }
  }
}
