/** Validation of a key server's hash chain (cryptengine/hashchain.go, keyserver/hashchain/hashchain.go). */
module HashChain {
  import opened Bytes

  const ENTRY_LEN := 153
  const HASH_LEN := 32
  const TYPE: Byte := 1

  /** HASH(entry[n]) | TYPE | NONCE | HashID | CrUID | UIDIndex */
  datatype Entry = Entry(hash: Bytes, typ: Bytes, nonce: Bytes, hashId: Bytes, crUid: Bytes, uidIndex: Bytes)

  datatype ChainError = NotFound | NotBase64 | WrongLength | WrongType | BadLink | NotRecorded

  /** The local database of one domain: the base64 entries by position, and the decoder. */
  datatype Db = Db(entries: map<nat, Bytes>, last: Option<nat>, decode: Bytes -> Option<Bytes>)

  /** Where a UID message reply says it is recorded. */
  datatype Reply = Reply(pos: nat, entry: Bytes)

  function SplitEntry(db: Db, entry: Bytes): (r: Result<Entry, ChainError>)
    ensures r.Ok? ==>
              && var e := r.value;
                 && |e.hash| == 32 && |e.nonce| == 8 && |e.hashId| == 32 && |e.crUid| == 48 && |e.uidIndex| == 32
                 && e.typ == [1]
                 && db.decode(entry) == Some(e.hash + e.typ + e.nonce + e.hashId + e.crUid + e.uidIndex)
    ensures r.Err? ==>
              r.error == if db.decode(entry).None? then NotBase64
                         else if |db.decode(entry).value| != 153 then WrongLength
                         else WrongType
  {
    match db.decode(entry)
    case None => Err(NotBase64)
    case Some(e) =>
      if |e| != ENTRY_LEN then Err(WrongLength)
      else if e[32..33] != [TYPE] then Err(WrongType)
      else
        var r := Entry(e[..32], e[32..33], e[33..41], e[41..73], e[73..121], e[121..]);
        assert e == r.hash + r.typ + r.nonce + r.hashId + r.crUid + r.uidIndex;
        Ok(r)
  }

  // --- what a valid chain is, without reference to the loop

  /** Decoded entry i is there, has the right length and the right type. */
  predicate Readable(db: Db, i: nat) {
    && i in db.entries
    && var d := db.decode(db.entries[i]);
       d.Some? && |d.value| == 153 && d.value[32] == 1
  }

  function EntryAt(db: Db, i: nat): (e: Bytes)
    requires Readable(db, i)
    ensures |e| == 153
  {
    db.decode(db.entries[i]).value
  }

  function HashAt(db: Db, i: nat): (h: Bytes)
    requires Readable(db, i)
    ensures |h| == 32
  {
    EntryAt(db, i)[..32]
  }

  /** What entry i's hash is computed over: its own fields, then the hash before it. */
  function Block(db: Db, i: nat): (b: Bytes)
    requires Readable(db, i) && (i > 0 ==> Readable(db, i - 1))
    ensures |b| == 153
  {
    EntryAt(db, i)[32..] + (if i == 0 then Zeros(32) else HashAt(db, i - 1))
  }

  predicate Linked(sha: Bytes -> Bytes, db: Db, i: nat) {
    && Readable(db, i) && (i > 0 ==> Readable(db, i - 1))
    && HashAt(db, i) == sha(Block(db, i))
  }

  predicate ValidTo(sha: Bytes -> Bytes, db: Db, n: nat) {
    forall i: nat :: i < n ==> Linked(sha, db, i)
  }

  /** What is wrong with the first entry that is not linked. */
  function Fault(db: Db, i: nat): ChainError {
    if i !in db.entries then NotFound
    else if db.decode(db.entries[i]).None? then NotBase64
    else if |db.decode(db.entries[i]).value| != 153 then WrongLength
    else if db.decode(db.entries[i]).value[32] != 1 then WrongType
    else BadLink
  }

  /** Every reply that claims a position of the chain is what stands there. */
  predicate Recorded(db: Db, max: nat, replies: seq<Option<Reply>>) {
    forall k :: 0 <= k < |replies| && replies[k].Some? && replies[k].value.pos <= max ==>
      replies[k].value.pos in db.entries && db.entries[replies[k].value.pos] == replies[k].value.entry
  }

  // --- the validation

  /** copy(a[at:], src) */
  method CopyAt(a: array<Byte>, at: nat, src: Bytes)
    requires at + |src| <= a.Length
    modifies a
    ensures a[..] == old(a[..at]) + src + old(a[at + |src|..])
  {
    for i := 0 to |src|
      invariant a[..at] == old(a[..at])
      invariant a[at..at + i] == src[..i]
      invariant a[at + i..] == old(a[at + i..])
    {
      a[at + i] := src[i];
      assert a[at..at + i + 1] == a[at..at + i] + [a[at + i]];
    }
    assert a[..] == a[..at] + a[at..at + |src|] + a[at + |src|..];
  }

  /** The buffer that is hashed for one entry. */
  method HashedBytes(e: Entry, previous: Bytes) returns (b: Bytes)
    requires |e.typ| == 1 && |e.nonce| == 8 && |e.hashId| == 32 && |e.crUid| == 48 && |e.uidIndex| == 32
    requires |previous| == HASH_LEN
    ensures b == e.typ + e.nonce + e.hashId + e.crUid + e.uidIndex + previous
  {
    var entryN := new Byte[ENTRY_LEN](_ => 0);
    CopyAt(entryN, 0, e.typ);
    assert entryN[..1] == e.typ;
    CopyAt(entryN, 1, e.nonce);
    assert entryN[..9] == e.typ + e.nonce;
    CopyAt(entryN, 9, e.hashId);
    assert entryN[..41] == e.typ + e.nonce + e.hashId;
    CopyAt(entryN, 41, e.crUid);
    assert entryN[..89] == e.typ + e.nonce + e.hashId + e.crUid;
    CopyAt(entryN, 89, e.uidIndex);
    assert entryN[..121] == e.typ + e.nonce + e.hashId + e.crUid + e.uidIndex;
    CopyAt(entryN, 121, previous);
    b := entryN[..];
  }

  lemma SplitIsReadable(db: Db, i: nat)
    requires i in db.entries
    ensures SplitEntry(db, db.entries[i]).Ok? <==> Readable(db, i)
    ensures Readable(db, i) ==>
              var e := SplitEntry(db, db.entries[i]).value;
              && HashAt(db, i) == e.hash && |EntryAt(db, i)| == 153
              && EntryAt(db, i)[HASH_LEN..] == e.typ + e.nonce + e.hashId + e.crUid + e.uidIndex
  {
    if Readable(db, i) {
      var d := db.decode(db.entries[i]).value;
      assert d[32..33] == [d[32]];
    }
  }

  /** validateHashChain, the loop over the links: succeeds exactly on valid chains, and otherwise tells what is
      wrong with the first entry that is not linked. */
  method ValidateLinks(sha: Bytes -> Bytes, db: Db, max: nat) returns (r: Result<(), ChainError>)
    ensures r.Ok? <==> ValidTo(sha, db, max + 1)
    ensures r.Err? ==>
              exists i: nat :: i <= max && ValidTo(sha, db, i) && !Linked(sha, db, i) && r.error == Fault(db, i)
  {
    var hashEntryN, hashEntryNminus1: Bytes := [], [];
    for i: nat := 0 to max + 1
      invariant ValidTo(sha, db, i)
      invariant i > 0 ==> Readable(db, i - 1) && hashEntryN == HashAt(db, i - 1)
    {
      if i !in db.entries {
        assert !Linked(sha, db, i);
        return Err(NotFound);
      }
      hashEntryNminus1 := if i == 0 then Zeros(HASH_LEN) else hashEntryN;
      var split := SplitEntry(db, db.entries[i]);
      SplitIsReadable(db, i);
      if split.Err? {
        assert !Linked(sha, db, i);
        return Err(split.error);
      }
      hashEntryN := split.value.hash;
      var entryN := HashedBytes(split.value, hashEntryNminus1);
      assert entryN == Block(db, i);
      if hashEntryN != sha(entryN) {
        assert !Linked(sha, db, i);
        return Err(BadLink);
      }
    }
    r := Ok(());
  }

  /** validateHashChain: a chain must be there, every link must hold, and our own replies must be
      recorded where they say. */
  method ValidateHashChain(sha: Bytes -> Bytes, db: Db, replies: seq<Option<Reply>>) returns (r: Result<(), ChainError>)
    ensures r.Ok? <==> db.last.Some? && ValidTo(sha, db, db.last.value + 1) && Recorded(db, db.last.value, replies)
    ensures db.last.None? ==> r == Err(NotFound)
    ensures r.Err? && db.last.Some? ==>
              if ValidTo(sha, db, db.last.value + 1) then r.error == NotRecorded
              else exists i: nat ::
                     i <= db.last.value && ValidTo(sha, db, i) && !Linked(sha, db, i) && r.error == Fault(db, i)
  {
    if db.last.None? {
      return Err(NotFound);
    }
    var max := db.last.value;
    r := ValidateLinks(sha, db, max);
    if r.Err? {
      return;
    }
    for k := 0 to |replies|
      invariant Recorded(db, max, replies[..k])
    {
      if replies[k].Some? && replies[k].value.pos <= max {
        var pos := replies[k].value.pos;
        assert Linked(sha, db, pos);
        if db.entries[pos] != replies[k].value.entry {
          return Err(NotRecorded);
        }
      }
      assert replies[..k + 1] == replies[..k] + [replies[k]];
    }
    assert replies[..|replies|] == replies;
  }

  // --- the head binds the history

  /** SHA-256 does not collide on the blocks of these two chains and maps none of them to zeros. */
  ghost predicate NoCollision(sha: Bytes -> Bytes, a: Db, m: nat, b: Db, n: nat)
    requires ValidTo(sha, a, m) && ValidTo(sha, b, n)
  {
    && (forall i: nat, j: nat :: i < m && j < n ==>
          assert Linked(sha, a, i) && Linked(sha, b, j);
          sha(Block(a, i)) == sha(Block(b, j)) ==> Block(a, i) == Block(b, j))
    && (forall i: nat :: i < m ==> assert Linked(sha, a, i); sha(Block(a, i)) != Zeros(HASH_LEN))
    && (forall j: nat :: j < n ==> assert Linked(sha, b, j); sha(Block(b, j)) != Zeros(HASH_LEN))
  }

  /** Equal hashes anywhere in two valid chains mean equal positions and equal history up to there. */
  lemma {:induction false} HashBindsHistory(sha: Bytes -> Bytes, a: Db, m: nat, b: Db, n: nat, i: nat, j: nat)
    requires ValidTo(sha, a, m) && ValidTo(sha, b, n) && NoCollision(sha, a, m, b, n)
    requires i < m && j < n
    requires Linked(sha, a, i) && Linked(sha, b, j) && HashAt(a, i) == HashAt(b, j)
    ensures i == j
    ensures forall k: nat :: k <= i ==> Readable(a, k) && Readable(b, k) && EntryAt(a, k) == EntryAt(b, k)
  {
    hide Block, HashAt, EntryAt, Readable;
    BlocksAgree(a, i, b, j);
    if i > 0 {
      assert Linked(sha, a, i - 1);
    }
    if j > 0 {
      assert Linked(sha, b, j - 1);
    }
    if i > 0 && j > 0 {
      HashBindsHistory(sha, a, m, b, n, i - 1, j - 1);
    }
  }

  lemma BlocksAgree(a: Db, i: nat, b: Db, j: nat)
    requires Readable(a, i) && (i > 0 ==> Readable(a, i - 1))
    requires Readable(b, j) && (j > 0 ==> Readable(b, j - 1))
    requires Block(a, i) == Block(b, j) && HashAt(a, i) == HashAt(b, j)
    ensures EntryAt(a, i) == EntryAt(b, j)
    ensures (if i == 0 then Zeros(HASH_LEN) else HashAt(a, i - 1)) ==
            (if j == 0 then Zeros(HASH_LEN) else HashAt(b, j - 1))
  {
    var x, y := Block(a, i), Block(b, j);
    assert x[..121] == EntryAt(a, i)[HASH_LEN..] && y[..121] == EntryAt(b, j)[HASH_LEN..];
    assert EntryAt(a, i) == HashAt(a, i) + x[..121] && EntryAt(b, j) == HashAt(b, j) + y[..121];
    assert x[121..] == if i == 0 then Zeros(HASH_LEN) else HashAt(a, i - 1);
    assert y[121..] == if j == 0 then Zeros(HASH_LEN) else HashAt(b, j - 1);
  }

  /** Two validated chains with the same head hash have the same length and the same entries. */
  lemma HeadBindsHistory(sha: Bytes -> Bytes, a: Db, b: Db)
    requires a.last.Some? && b.last.Some?
    requires ValidTo(sha, a, a.last.value + 1) && ValidTo(sha, b, b.last.value + 1)
    requires NoCollision(sha, a, a.last.value + 1, b, b.last.value + 1)
    requires Linked(sha, a, a.last.value) && Linked(sha, b, b.last.value)
    requires HashAt(a, a.last.value) == HashAt(b, b.last.value)
    ensures a.last == b.last
    ensures forall k: nat :: k <= a.last.value ==> Readable(a, k) && Readable(b, k) && EntryAt(a, k) == EntryAt(b, k)
  {
    HashBindsHistory(sha, a, a.last.value + 1, b, b.last.value + 1, a.last.value, b.last.value);
  }
}
