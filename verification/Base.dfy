/** Types shared by every component: log events, their keys, and a few sequence helpers. */
module Base {

  datatype Option<+T> = None | Some(value: T)

  function GetOr<T>(o: Option<T>, default: T): T {
    if o.Some? then o.value else default
  }

  const I64_MIN: int := -0x8000_0000_0000_0000
  const I64_MAX: int := 0x7fff_ffff_ffff_ffff

  type i64 = x: int | I64_MIN <= x <= I64_MAX

  /** The deduplication key: where Kafka stored the message. */
  datatype Key = Key(partition: int, offset: i64)

  /** A log event. `message` stands for the rest of the envelope; `size` for its estimated bytes. */
  datatype Event = Event(key: Key, timestamp: i64, service: string, message: string, size: nat)

  /** The rows of one immutable Parquet file. */
  type File = seq<Event>

  function Max(a: int, b: int): int { if a < b then b else a }

  function Min(a: int, b: int): int { if a < b then a else b }

  function Last<T>(s: seq<T>): T
    requires s != []
  {
    s[|s| - 1]
  }

  function Flatten<T>(xs: seq<seq<T>>): seq<T> {
    if xs == [] then [] else xs[0] + Flatten(xs[1..])
  }

  lemma {:induction false} FlattenConcat<T>(xs: seq<seq<T>>, ys: seq<seq<T>>)
    ensures Flatten(xs + ys) == Flatten(xs) + Flatten(ys)
  {
    if xs == [] {
      assert xs + ys == ys;
    } else {
      assert (xs + ys)[1..] == xs[1..] + ys;
      FlattenConcat(xs[1..], ys);
    }
  }

  lemma FlattenSnoc<T>(xs: seq<seq<T>>, y: seq<T>)
    ensures Flatten(xs + [y]) == Flatten(xs) + y
  {
    FlattenConcat(xs, [y]);
    assert Flatten([y]) == y + Flatten([]);
  }

  lemma {:induction false} FlattenMember<T>(xs: seq<seq<T>>, e: T)
    ensures e in Flatten(xs) <==> exists i :: 0 <= i < |xs| && e in xs[i]
  {
    if xs != [] {
      FlattenMember(xs[1..], e);
      if e in Flatten(xs[1..]) {
        var i :| 0 <= i < |xs[1..]| && e in xs[1..][i];
        assert e in xs[i + 1];
      }
      if i :| 0 <= i < |xs| && e in xs[i] {
        assert i == 0 || e in xs[1..][i - 1];
      }
    }
  }

  /** Equal keys mean equal events: what a faithful replay from Kafka guarantees. */
  ghost predicate Consistent(rows: seq<Event>) {
    forall e, f :: e in rows && f in rows && e.key == f.key ==> e == f
  }

  method AnyOf<T>(s: set<T>) returns (x: T)
    requires s != {}
    ensures x in s
  {
    x :| x in s;
  }
}
