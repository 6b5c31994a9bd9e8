/** Shared result types and the few string operations the agent runtime relies on. */
module Prelude {

  datatype Option<+T> = None | Some(value: T)

  datatype Result<+T, +E> = Ok(value: T) | Err(error: E)

  /** The runtime's single error record: a message and a machine-readable code. */
  datatype LLMError = LLMError(message: string, code: string)

  /** What the permission engine says about a call. */
  datatype Behavior = Allow | Deny | Ask

  /** `"".join(parts)`, growing on the right like the lists that are joined. */
  function Concat(parts: seq<string>): string
  {
    if parts == [] then "" else Concat(parts[..|parts| - 1]) + parts[|parts| - 1]
  }

  lemma ConcatSnoc(parts: seq<string>, last: string)
    ensures Concat(parts + [last]) == Concat(parts) + last
  {
    assert (parts + [last])[..|parts|] == parts;
  }

  lemma {:induction false} ConcatAppend(a: seq<string>, b: seq<string>)
    ensures Concat(a + b) == Concat(a) + Concat(b)
  {
    if b == [] {
      assert a + b == a;
    } else {
      var init, last := b[..|b| - 1], b[|b| - 1];
      assert a + b == (a + init) + [last];
      ConcatSnoc(a + init, last);
      ConcatAppend(a, init);
      assert Concat(a) + (Concat(init) + last) == (Concat(a) + Concat(init)) + last;
    }
  }

  /** `sep.join(parts)`. */
  function Join(sep: string, parts: seq<string>): string
  {
    if parts == [] then ""
    else if |parts| == 1 then parts[0]
    else Join(sep, parts[..|parts| - 1]) + sep + parts[|parts| - 1]
  }

  lemma SomeMember(s: set<int>) returns (k: int)
    requires s != {}
    ensures k in s
  {
    assert (forall x :: x !in s) ==> s <= {};
    k :| k in s;
  }
}
