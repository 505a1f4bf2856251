/** Types shared by every component: bytes, dynamically typed scalars, and results
    that carry the kind of exception the program raises. */
module Common {

  type byte = x: int | 0 <= x < 256

  type Bytes = seq<byte>

  /** The exceptions the modelled code can raise. */
  datatype Error =
    | KeyError
    | ValueError
    | OverflowError
    | UnicodeError
    | AttributeError
    | StructError
    | BitstructError
    | ConfigError
    | UpgradeError
    | TypeError

  datatype Option<+T> = None | Some(value: T)

  datatype Result<+T> = Ok(value: T) | Err(error: Error) {
    predicate IsFailure() {
      Err?
    }

    function PropagateFailure<U>(): Result<U>
      requires Err?
    {
      Err(error)
    }

    function Extract(): T
      requires Ok?
    {
      value
    }
  }

  /** A scalar of a YAML document: Python and JavaScript values are dynamically typed,
      and the web UI really does put the text 'ERROR!' where a number belongs. */
  datatype Value =
    | Num(n: int)
    | Flag(b: bool)
    | Raw(bytes: Bytes)
    | Text(s: string)

  /** Concatenation of a sequence of sequences, in the order a loop appends them. */
  function Concat<T>(rows: seq<seq<T>>): seq<T> {
    if rows == [] then [] else Concat(rows[..|rows| - 1]) + rows[|rows| - 1]
  }

  lemma {:induction false} ConcatLength<T>(rows: seq<seq<T>>, k: nat)
    requires forall i :: 0 <= i < |rows| ==> |rows[i]| == k
    ensures |Concat(rows)| == |rows| * k
  {
    if rows != [] {
      ConcatLength(rows[..|rows| - 1], k);
      assert (|rows| - 1) * k + k == |rows| * k;
    }
  }

  lemma {:induction false} ConcatSnoc<T>(rows: seq<seq<T>>, row: seq<T>)
    ensures Concat(rows + [row]) == Concat(rows) + row
  {
    assert (rows + [row])[..|rows|] == rows;
  }

  /** s cut into n rows of k elements. */
  function Chunks<T>(s: seq<T>, n: nat, k: nat): (rows: seq<seq<T>>)
    requires |s| == n * k
    ensures |rows| == n
    ensures forall i :: 0 <= i < n ==> |rows[i]| == k
  {
    if n == 0 then []
    else
      assert n * k == (n - 1) * k + k;
      Chunks(s[..(n - 1) * k], n - 1, k) + [s[(n - 1) * k..]]
  }

  lemma {:induction false} ConcatOfChunks<T>(s: seq<T>, n: nat, k: nat)
    requires |s| == n * k
    ensures Concat(Chunks(s, n, k)) == s
  {
    if n > 0 {
      assert n * k == (n - 1) * k + k;
      ConcatOfChunks(s[..(n - 1) * k], n - 1, k);
      ConcatSnoc(Chunks(s[..(n - 1) * k], n - 1, k), s[(n - 1) * k..]);
    }
  }

  lemma {:induction false} ChunksOfConcat<T>(rows: seq<seq<T>>, k: nat)
    requires forall i :: 0 <= i < |rows| ==> |rows[i]| == k
    ensures |Concat(rows)| == |rows| * k
    ensures Chunks(Concat(rows), |rows|, k) == rows
  {
    ConcatLength(rows, k);
    if rows != [] {
      var n := |rows| - 1;
      ChunksOfConcat(rows[..n], k);
      assert |rows| * k == n * k + k;
      assert Concat(rows)[..n * k] == Concat(rows[..n]);
      assert Concat(rows)[n * k..] == rows[n];
    }
  }
}
