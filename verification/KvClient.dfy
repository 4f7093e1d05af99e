/** The client of List: it takes a page apart and walks a table page by page. */
module KvClient {
  import opened KvSpec
  import opened KvTable
  import opened KvIov
  import opened KvList

  const KLEN: nat := 16

  function Word(b0: int, b1: int, b2: int, b3: int): int { b0 + 0x100 * b1 + 0x10000 * b2 + 0x100_0000 * b3 }

  function Read32(b: seq<byte>): (n: nat)
    requires |b| >= 4
  {
    Word(b[0], b[1], b[2], b[3])
  }

  lemma Read32Le(n: nat, rest: seq<byte>)
    requires n < W32
    ensures Read32(Le32(n) + rest) == n
  {
    LowFirst(n);
    hide Le32;
  }

  /** Take the records of a page apart again. */
  function Parse(list: seq<byte>, off: nat, n: nat): (ks: seq<seq<byte>>)
    decreases n
  {
    if n == 0 || off + 2 > |list| then []
    else
      var kl: nat := Word(list[off], list[off + 1], 0, 0);
      if off + 2 + kl > |list| then []
      else [list[off + 2..off + 2 + kl]] + Parse(list, off + RecLen(kl), n - 1)
  }

  lemma RecordIn(list: seq<byte>, off: nat, k: Key, rest: seq<byte>)
    requires |k| < 256 && off <= |list| && list[off..] == Record(k) + rest
    ensures off + RecLen(|k|) <= |list| && Word(list[off], list[off + 1], 0, 0) == |k|
    ensures list[off + 2..off + 2 + |k|] == k && list[off + RecLen(|k|)..] == rest
  {
    var tail := list[off..];
    assert list[off] == tail[0] && list[off + 1] == tail[1];
    assert list[off + 2..off + 2 + |k|] == tail[2..2 + |k|] == k;
    assert list[off + RecLen(|k|)..] == tail[RecLen(|k|)..];
  }

  lemma {:induction false} ParseRecords(list: seq<byte>, off: nat, ks: seq<Key>, rest: seq<byte>)
    requires AllKeysFit(ks) && off <= |list| && list[off..] == Encode(ks) + rest
    ensures Parse(list, off, |ks|) == ks
    decreases |ks|
  {
    hide Record, Word;
    if ks != [] {
      assert Encode(ks) + rest == Record(ks[0]) + (Encode(ks[1..]) + rest);
      RecordIn(list, off, ks[0], Encode(ks[1..]) + rest);
      ParseRecords(list, off + RecLen(|ks[0]|), ks[1..], rest);
    }
  }

  /** Reading a page gives back exactly the keys it was made from, as many as fitted. */
  lemma ParseUndoesPage(ks: seq<Key>, size: nat)
    requires AllKeysFit(ks) && 4 <= size < W32
    ensures var page := Page(ks, size);
            Read32(page) == Fit(ks, size - 4) && Parse(page, 4, Read32(page)) == ks[..Fit(ks, size - 4)]
  {
    var n := Fit(ks, size - 4);
    var page := Page(ks, size);
    FitFits(ks, size - 4);
    EncodeLong(ks[..n]);
    var rest := Zeros(size - 4 - |Encode(ks[..n])|);
    assert page == Le32(n) + (Encode(ks[..n]) + rest);
    Read32Le(n, Encode(ks[..n]) + rest);
    assert page[4..] == Encode(ks[..n]) + rest;
    ParseRecords(page, 4, ks[..n], rest);
  }

  // ---- walking a table of 16-byte keys ----

  predicate AllLong(ks: seq<Key>) { forall i :: 0 <= i < |ks| ==> |ks[i]| == KLEN }

  /** Records a page has room for, when every key is 16 bytes long. */
  function PerPage(size: nat): nat
    requires size >= 4
  {
    (size - 4) / RecLen(KLEN)
  }

  lemma {:induction false} FitLong(ks: seq<Key>, room: nat)
    requires AllLong(ks)
    ensures Fit(ks, room) == Min(|ks|, room / 20)
  {
    assert RecLen(KLEN) == 20;
    if ks != [] && room >= 20 { FitLong(ks[1..], room - 20); }
  }

  lemma {:induction false} EncodeAt(ks: seq<Key>, i: nat)
    requires AllLong(ks) && AllKeysFit(ks) && i < |ks|
    ensures |Encode(ks)| == 20 * |ks|
    ensures Encode(ks)[20 * i..20 * i + 18] == [16, 0] + ks[i]
  {
    assert Record(ks[0]) == [16, 0] + ks[0] + Zeros(2);
    if i == 0 {
      if |ks| > 1 { EncodeAt(ks[1..], 0); }
    } else {
      EncodeAt(ks[1..], i - 1);
      assert Encode(ks)[20..] == Encode(ks[1..]);
      assert Encode(ks)[20 * i..20 * i + 18] == Encode(ks)[20..][20 * (i - 1)..20 * (i - 1) + 18];
    }
  }

  /** Keys seen after a number of pages: every page after the first repeats one. */
  function Reach(per: nat, pages: nat): nat {
    if pages == 0 || per == 0 then 0
    else if pages == 1 then per
    else Reach(per, pages - 1) + per - 1
  }

  lemma {:induction false} ReachGrows(per: nat, a: nat, b: nat)
    requires a <= b
    ensures Reach(per, a) <= Reach(per, b)
    ensures per <= 1 && a > 0 ==> Reach(per, a) == Reach(per, b)
    ensures per >= 2 ==> Reach(per, b) >= b
    decreases b
  {
    if a < b { ReachGrows(per, a, b - 1); }
    else if b > 0 { ReachGrows(per, a - 1, b - 1); }
  }

  /** What a page of 16-byte keys looks like to its reader. */
  lemma PageOfLong(ks: seq<Key>, size: nat)
    requires AllLong(ks) && 4 <= size < W32
    ensures AllKeysFit(ks) && Fit(ks, size - 4) == Min(|ks|, PerPage(size)) <= (size - 4) / 20
    ensures var page := Page(ks, size);
            && Read32(page) == Fit(ks, size - 4)
            && forall i :: 0 <= i < Fit(ks, size - 4) ==> KeyAt(page, 4 + 20 * i, ks[i])
  {
    ParseUndoesPage(ks, size);
    FitLong(ks, size - 4);
    assert RecLen(KLEN) == 20;
    var n := Fit(ks, size - 4);
    var page := Page(ks, size);
    forall i | 0 <= i < n ensures KeyAt(page, 4 + 20 * i, ks[i]) {
      KeyInPage(ks, size, i);
    }
  }

  /** A record with a 16-byte key stands at this place. */
  predicate KeyAt(list: seq<byte>, off: nat, k: Key) {
    off + 18 <= |list| && list[off] == 16 && list[off + 1] == 0 && list[off + 2..off + 18] == k
  }

  lemma KeyInPage(ks: seq<Key>, size: nat, i: nat)
    requires AllLong(ks) && AllKeysFit(ks) && 4 <= size < W32 && i < Fit(ks, size - 4)
    ensures KeyAt(Page(ks, size), 4 + 20 * i, ks[i])
  {
    var n := Fit(ks, size - 4);
    FitFits(ks, size - 4);
    EncodeLong(ks[..n]);
    EncodeAt(ks[..n], i);
    var page, enc := Page(ks, size), Encode(ks[..n]);
    assert page[4..4 + |enc|] == enc;
    assert page[4 + 20 * i..4 + 20 * i + 18] == enc[20 * i..20 * i + 18] == [16, 0] + ks[i];
    var r := page[4 + 20 * i..4 + 20 * i + 18];
    assert r[0] == 16 && r[1] == 0 && r[2..] == ks[i];
    assert page[4 + 20 * i + 2..4 + 20 * i + 18] == r[2..];
  }

  lemma LongRecord()
    ensures RecLen(16) == 20 && Word(16, 0, 0, 0) == 16
  {}

  lemma AtKey(list: seq<byte>, off: nat, k: Key)
    requires KeyAt(list, off, k)
    ensures off + 18 <= |list| && Word(list[off], list[off + 1], 0, 0) == 16 && list[off + 2..off + 18] == k
  {}

  /** Read one page; on every page but the first the first key is dropped. */
  method ReadPage(list: seq<byte>, firstPage: bool, ghost ks: seq<Key>) returns (got: seq<Key>, lastOff: nat)
    requires AllLong(ks) && 4 <= |list| < W32 && AllKeysFit(ks) && list == Page(ks, |list|)
    ensures var n := Min(|ks|, PerPage(|list|));
            && got == (if firstPage || n == 0 then ks[..n] else ks[1..n])
            && (n > 0 ==> KeyAt(list, lastOff, ks[n - 1]))
    ensures got != [] ==> KeyAt(list, lastOff, got[|got| - 1])
  {
    hide Page, PerPage, Fit, Encode, Record, Word, RecLen, KeyAt, AllLong, AllKeysFit, Read32;
    PageOfLong(ks, |list|);
    assert RecLen(16) == 20 by { LongRecord(); }
    var nrk := Read32(list);
    var off, k := 4, 0;
    got, lastOff := [], 0;
    while k < nrk
      invariant k <= nrk && off == 4 + 20 * k
      invariant got == if firstPage || k == 0 then ks[..k] else ks[1..k]
      invariant k > 0 ==> KeyAt(list, lastOff, ks[k - 1])
    {
      AtKey(list, 4 + 20 * k, ks[k]);
      var kl := Word(list[off], list[off + 1], 0, 0);
      lastOff := off;
      if k > 0 || firstPage {
        got := got + [list[off + 2..off + 2 + kl]];
      }
      off := off + RecLen(kl);
      k := k + 1;
    }
  }

  /** Keys reported after some pages. */
  function Seen(ks: seq<Key>, per: nat, pages: nat): seq<Key> { ks[..Min(|ks|, Reach(per, pages))] }

  /** One List command into the client's buffer. */
  method AskPage(kv: Kv, start: Key, buf: array<byte>)
    requires kv.Valid() && |start| <= MAX_KEY && 4 <= buf.Length < W32
    modifies buf
    ensures var all := old(TableKeys(kv.g.chains, 0));
            AllKeysFit(From(all, start)) && buf[..] == Page(From(all, start), buf.Length)
    ensures TableKeys(kv.g.chains, 0) == old(TableKeys(kv.g.chains, 0))
    ensures kv.Valid()
  {
    hide Kv.Valid, Page, From, TableKeys, AllKeysFit, Flat;
    FlatOne(buf);
    var _ := KvList.List(kv, start, buf.Length, buf.Length, [buf]);
    FlatOne(buf);
    SameKeysFrom(kv.g.chains, 0);
  }

  lemma FlatOne(a: array<byte>)
    ensures Flat([a]) == a[..]
  {
    assert [a][..0] == [];
  }

  /** Ask for one page and read it. */
  method Turn(kv: Kv, start: Key, firstPage: bool, buf: array<byte>,
              ghost ks: seq<Key>, ghost pages: nat, ghost found: seq<Key>)
    returns (got: seq<Key>, last: Key)
    requires kv.Valid() && ks == TableKeys(kv.g.chains, 0) && |start| <= MAX_KEY
    requires AllLong(ks) && Distinct(ks) && 4 <= buf.Length < W32 && found == Seen(ks, PerPage(buf.Length), pages)
    requires if firstPage then start !in ks && pages == 0 else pages > 0 && found != [] && start == found[|found| - 1]
    modifies buf
    ensures ks == TableKeys(kv.g.chains, 0) && found + got == Seen(ks, PerPage(buf.Length), pages + 1)
    ensures got != [] ==> last == got[|got| - 1] && |last| == KLEN
    ensures kv.Valid()
  {
    hide Kv.Valid, Page, PerPage, Reach, From, IndexOf, Fit, Seen, AllLong, AllKeysFit, Distinct, TableKeys;
    var size := buf.Length;
    SeenPrefix(ks, PerPage(size), pages);
    FromLong(ks, start, found, firstPage);
    ghost var rest := From(ks, start);
    PageOfLong(rest, size);
    AskPage(kv, start, buf);
    var list := buf[..];
    var lastOff;
    label L:
    got, lastOff := ReadPage(list, firstPage, rest);
    SameKeysFrom@L(kv.g.chains, 0);
    PageSeen(ks, PerPage(size), pages, found, firstPage);
    last := start;
    if got != [] {
      last := list[lastOff + 2..lastOff + 2 + KLEN];
    }
  }

  /**
   * Walk an unchanging table: begin at a key it does not have, restart each page from the last
   * key of the one before, drop the repeat, stop when a page brings nothing new. The keys
   * reported are the first ones of the table's order, each once, as far as the pages reach.
   */
  method WalkTable(kv: Kv, absent: Key, buf: array<byte>, limit: nat) returns (found: seq<Key>)
    requires kv.Valid() && absent !in kv.g.M && |absent| <= MAX_KEY && 4 <= buf.Length < W32
    requires forall k :: k in kv.g.M ==> |k| == KLEN
    modifies buf
    ensures found == Seen(TableKeys(kv.g.chains, 0), PerPage(buf.Length), limit)
    ensures Distinct(found) && forall k :: k in found ==> k in kv.g.M
    ensures buf.Length >= 44 && |kv.g.M| <= limit ==> forall k :: k in kv.g.M ==> k in found
    ensures kv.Valid()
  {
    hide Kv.Valid, PerPage, TableKeys, Reach, Seen, Distinct;
    ghost var ks := TableKeys(kv.g.chains, 0);
    KeysOnce(kv);
    found := WalkPages(kv, absent, buf, limit, ks);
    WalkSees(kv.g.M, ks, found, buf.Length, limit);
  }

  /** What the keys reported are, in terms of the map. */
  lemma WalkSees(M: map<Key, Value>, ks: seq<Key>, found: seq<Key>, size: nat, limit: nat)
    requires 4 <= size && Distinct(ks) && (forall k :: k in ks <==> k in M) && found == Seen(ks, PerPage(size), limit)
    ensures Distinct(found) && forall k :: k in found ==> k in M
    ensures size >= 44 && |M| <= limit ==> forall k :: k in M ==> k in found
  {
    hide PerPage, Seen, Distinct;
    SeenPrefix(ks, PerPage(size), limit);
    PrefixDistinct(ks, found);
    if size >= 44 && |M| <= limit {
      DistinctSize(ks, M.Keys);
      AllVisited(ks, size, limit);
    }
  }

  method WalkPages(kv: Kv, absent: Key, buf: array<byte>, limit: nat, ghost ks: seq<Key>) returns (found: seq<Key>)
    requires kv.Valid() && ks == TableKeys(kv.g.chains, 0) && AllLong(ks) && Distinct(ks)
    requires absent !in ks && |absent| <= MAX_KEY && 4 <= buf.Length < W32
    modifies buf
    ensures found == Seen(ks, PerPage(buf.Length), limit) && ks == TableKeys(kv.g.chains, 0)
    ensures kv.Valid()
  {
    hide Kv.Valid, PerPage, TableKeys, Reach, Seen, Distinct, AllLong;
    var start, firstPage, pages := absent, true, 0;
    found := [];
    SeenNone(ks, PerPage(buf.Length));
    while pages < limit
      invariant pages <= limit && (firstPage <==> pages == 0) && found == Seen(ks, PerPage(buf.Length), pages)
      invariant if firstPage then start == absent else found != [] && start == found[|found| - 1]
      invariant kv.Valid() && ks == TableKeys(kv.g.chains, 0) && |start| <= MAX_KEY
    {
      var got, last := Turn(kv, start, firstPage, buf, ks, pages, found);
      if got == [] {
        Stuck(ks, PerPage(buf.Length), pages, limit);
        break;
      }
      found, start := found + got, last;
      firstPage, pages := false, pages + 1;
    }
  }

  lemma SeenNone(ks: seq<Key>, per: nat)
    ensures Seen(ks, per, 0) == []
  {}

  lemma PrefixDistinct(ks: seq<Key>, found: seq<Key>)
    requires Distinct(ks) && found <= ks
    ensures Distinct(found) && forall k :: k in found ==> k in ks
  {
    forall i | 0 <= i < |found| ensures found[i] == ks[i] {}
  }

  lemma {:induction false} DistinctSize(ks: seq<Key>, s: set<Key>)
    requires Distinct(ks) && forall k :: k in s <==> k in ks
    ensures |ks| == |s|
  {
    if ks == [] {
      assert s == {};
    } else {
      var l := |ks| - 1;
      assert ks == ks[..l] + [ks[l]];
      DistinctSize(ks[..l], s - {ks[l]});
    }
  }

  /** A page that brings nothing new is followed only by such pages. */
  lemma Stuck(ks: seq<Key>, per: nat, pages: nat, limit: nat)
    requires Seen(ks, per, pages) == Seen(ks, per, pages + 1) && pages < limit
    ensures Seen(ks, per, pages) == Seen(ks, per, limit)
  {
    ReachGrows(per, pages + 1, limit);
    assert |Seen(ks, per, pages)| == |Seen(ks, per, pages + 1)|;
    if pages == 0 && per > 0 { assert ks == []; }
  }

  /** One more page: all of it at first, later all but one. */
  lemma PageSeen(ks: seq<Key>, per: nat, pages: nat, found: seq<Key>, firstPage: bool)
    requires found == Seen(ks, per, pages) && if firstPage then pages == 0 else pages > 0 && found != []
    ensures firstPage || |found| <= |ks|
    ensures var rest := if firstPage then ks else ks[|found| - 1..];
            var n := Min(|rest|, per);
            found + (if firstPage || n == 0 then rest[..n] else rest[1..n]) == Seen(ks, per, pages + 1)
  {}

  lemma SeenPrefix(ks: seq<Key>, per: nat, pages: nat)
    ensures Seen(ks, per, pages) <= ks
  {}

  lemma FromLong(ks: seq<Key>, start: Key, found: seq<Key>, firstPage: bool)
    requires AllLong(ks) && Distinct(ks)
    requires if firstPage then start !in ks else found != [] && found <= ks && start == found[|found| - 1]
    ensures AllLong(From(ks, start)) && From(ks, start) == if firstPage then ks else ks[|found| - 1..]
  {
    if !firstPage {
      IndexUnique(ks, start, |found| - 1);
    }
  }

  /** With two records to a page, as many pages as there are keys are enough for all of them. */
  lemma AllVisited(ks: seq<Key>, size: nat, limit: nat)
    requires size >= 44 && |ks| <= limit
    ensures Seen(ks, PerPage(size), limit) == ks
  {
    LongRecord();
    ReachGrows(PerPage(size), limit, limit);
  }

  /** However many pages, a page of one record reports one key, and a smaller one none. */
  lemma SmallPages(size: nat, limit: nat)
    requires 4 <= size < 44 && limit > 0
    ensures Reach(PerPage(size), limit) == if size < 24 then 0 else 1
  {
    LongRecord();
    ReachGrows(PerPage(size), 1, limit);
  }
}
