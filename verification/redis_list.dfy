/** An in-memory stand-in for the Redis server the chat store talks to:
    a map from key to list, with the list commands the store issues
    (RPUSH, LLEN, LRANGE, LTRIM, DEL). Index arguments follow Redis: a
    negative index counts from the tail (-1 is the last element), and an
    out-of-range window is clamped or empty rather than an error. As in
    Redis, a list that becomes empty is removed together with its key. */
module RedisList {

  type Db = map<string, seq<string>>

  /** Redis never stores an empty list under a key. */
  predicate NoEmptyLists(db: Db)
  {
    forall k :: k in db ==> |db[k]| > 0
  }

  /** `b` holds exactly what `a` holds under every key other than `key`. */
  predicate AgreeExcept(a: Db, b: Db, key: string)
  {
    && (forall k :: k in a && k != key ==> k in b && b[k] == a[k])
    && (forall k :: k in b && k != key ==> k in a)
  }

  /** The list under `key`; a missing key reads as the empty list. */
  function Get(db: Db, key: string): seq<string>
  {
    if key in db then db[key] else []
  }

  /** LLEN. */
  function LLen(db: Db, key: string): (n: nat)
    ensures n == 0 <==> Get(db, key) == []
  {
    |Get(db, key)|
  }

  /** RPUSH with at least one value (Redis rejects the command without
      one): the values go to the tail in the order given. */
  function RPush(db: Db, key: string, values: seq<string>): (r: Db)
    requires |values| > 0
    ensures Get(r, key) == Get(db, key) + values
    ensures key in r
    ensures AgreeExcept(db, r, key)
    ensures NoEmptyLists(db) ==> NoEmptyLists(r)
  {
    db[key := Get(db, key) + values]
  }

  /** A Redis index as a position: negative indices count from the tail. */
  function Resolve(len: nat, index: int): int
  {
    if index < 0 then len + index else index
  }

  /** The half-open window `[lo, hi)` of a list of length `len` that the
      inclusive Redis range `start..stop` selects. */
  function Window(len: nat, start: int, stop: int): (w: (nat, nat))
    ensures w.0 <= w.1 <= len
  {
    var s := Resolve(len, start);
    var e := Resolve(len, stop);
    var s := if s < 0 then 0 else s;
    if s > e || s >= len then (0, 0)
    else (s, if e >= len then len else e + 1)
  }

  /** Position `i` lies between the two resolved indices, both included. */
  predicate Selected(len: nat, start: int, stop: int, i: int)
  {
    Resolve(len, start) <= i <= Resolve(len, stop)
  }

  /** The window selects exactly the selected positions of the list. */
  lemma WindowSelects(len: nat, start: int, stop: int, i: int)
    requires 0 <= i < len
    ensures Window(len, start, stop).0 <= i < Window(len, start, stop).1 <==> Selected(len, start, stop, i)
  {
  }

  /** LRANGE. */
  function LRange(db: Db, key: string, start: int, stop: int): (r: seq<string>)
    ensures |r| <= LLen(db, key)
  {
    var w := Window(LLen(db, key), start, stop);
    Get(db, key)[w.0..w.1]
  }

  /** `r` is the block of `l` starting at `lo` that covers exactly the
      positions the range `start..stop` selects. */
  predicate SelectedBlock(r: seq<string>, l: seq<string>, start: int, stop: int, lo: nat)
  {
    && lo + |r| <= |l|
    && r == l[lo..lo + |r|]
    && forall i :: 0 <= i < |l| ==> (lo <= i < lo + |r| <==> Selected(|l|, start, stop, i))
  }

  /** LRANGE returns the selected positions of the list, in list order. */
  lemma LRangeSelects(db: Db, key: string, start: int, stop: int)
    ensures exists lo: nat :: SelectedBlock(LRange(db, key, start, stop), Get(db, key), start, stop, lo)
  {
    var len := LLen(db, key);
    var w := Window(len, start, stop);
    forall i | 0 <= i < len
      ensures w.0 <= i < w.1 <==> Selected(len, start, stop, i)
    {
      WindowSelects(len, start, stop, i);
    }
    assert SelectedBlock(LRange(db, key, start, stop), Get(db, key), start, stop, w.0);
  }

  /** LRANGE over `0..-1` returns the whole list. */
  lemma LRangeAll(db: Db, key: string)
    ensures LRange(db, key, 0, -1) == Get(db, key)
  {
  }

  /** LTRIM: keep exactly what LRANGE with the same arguments returns; a
      list trimmed to nothing loses its key. */
  function LTrim(db: Db, key: string, start: int, stop: int): (r: Db)
    ensures Get(r, key) == LRange(db, key, start, stop)
    ensures key in r <==> LRange(db, key, start, stop) != []
    ensures AgreeExcept(db, r, key)
    ensures NoEmptyLists(db) ==> NoEmptyLists(r)
  {
    var w := Window(LLen(db, key), start, stop);
    if w.0 == w.1 then db - {key} else db[key := Get(db, key)[w.0..w.1]]
  }

  /** DEL. */
  function Del(db: Db, key: string): (r: Db)
    ensures key !in r && Get(r, key) == []
    ensures AgreeExcept(db, r, key)
    ensures NoEmptyLists(db) ==> NoEmptyLists(r)
  {
    db - {key}
  }

  /** The last `min(|l|, m)` elements of `l`. */
  function Newest(l: seq<string>, m: nat): seq<string>
  {
    if |l| <= m then l else l[|l| - m..]
  }

  /** The newest `m` elements are a tail of the list, at most `m` long,
      non-empty when both are, and end with the list's last element. */
  lemma NewestIsTail(l: seq<string>, m: nat)
    ensures |Newest(l, m)| <= m && |Newest(l, m)| <= |l|
    ensures Newest(l, m) == l[|l| - |Newest(l, m)|..]
    ensures |l| > 0 && m > 0 ==> |Newest(l, m)| > 0 && Newest(l, m)[|Newest(l, m)| - 1] == l[|l| - 1]
  {
  }

  /** `LTRIM key -m -1` with `m > 0` keeps the newest `m` elements. */
  lemma LTrimKeepsNewest(db: Db, key: string, m: int)
    requires m > 0
    ensures Get(LTrim(db, key, -m, -1), key) == Newest(Get(db, key), m)
  {
  }

  /** `LTRIM key n -1` with `n >= 0` drops the oldest `n` elements. */
  lemma LTrimDropsOldest(db: Db, key: string, n: nat)
    ensures Get(LTrim(db, key, n, -1), key) == if n < LLen(db, key) then Get(db, key)[n..] else []
  {
  }
}
