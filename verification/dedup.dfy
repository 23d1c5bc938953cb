/**
 * The idempotent insert of the store, on values. Orders and errors are stored the
 * same way: a family of three maps (the records by primary key, and two indices
 * from a partner-scoped idempotency key or content hash to a primary key) and one
 * three-strategy duplicate check. The Storage class applies this to its six maps.
 */
module Dedup {
  import opened Wrappers
  import opened Types

  /** One record family: records by primary key, and the key and hash indices naming primary keys. */
  datatype Family<R> = Family(records: map<string, R>, byKey: map<string, string>, byHash: map<string, string>)

  /** What a save goes on: the partner, the optional key and hash, and the record's primary key. */
  datatype Tokens = Tokens(partnerId: string, idempotencyKey: Option<string>, contentHash: Option<string>, primaryKey: string)

  /** Which check found the stored record. */
  datatype Strategy = ByIdempotencyKey | ByContentHash | ByPrimaryKey

  /** `{ saved, duplicate, existing? }`. */
  datatype SaveResult<R> = SaveResult(saved: bool, duplicate: bool, existing: Option<R>)

  function EmptyFamily<R>(): Family<R>
  {
    Family(map[], map[], map[])
  }

  /** The index key of a token: `${partnerId}-${token}`. */
  function Scoped(partnerId: string, token: string): string
  {
    partnerId + "-" + token
  }

  /** A truthy token whose index entry is truthy and names a stored record: that record. */
  function Resolve<R>(records: map<string, R>, index: map<string, string>, partnerId: string, token: Option<string>): (r: Option<R>)
    ensures r.Some? ==> Present(token) && Scoped(partnerId, token.value) in index
                        && index[Scoped(partnerId, token.value)] in records
                        && r.value == records[index[Scoped(partnerId, token.value)]]
  {
    if Present(token) && Scoped(partnerId, token.value) in index then
      var existingKey := index[Scoped(partnerId, token.value)];
      if existingKey != "" && existingKey in records then Some(records[existingKey]) else None
    else None
  }

  /** The duplicate check: the idempotency key, then the content hash, then the primary key. */
  function Match<R>(f: Family<R>, t: Tokens): (m: Option<(Strategy, R)>)
    ensures m.Some? ==> exists k :: k in f.records && f.records[k] == m.value.1
    ensures m.None? <==> Resolve(f.records, f.byKey, t.partnerId, t.idempotencyKey).None?
                         && Resolve(f.records, f.byHash, t.partnerId, t.contentHash).None?
                         && t.primaryKey !in f.records
  {
    var byKey := Resolve(f.records, f.byKey, t.partnerId, t.idempotencyKey);
    if byKey.Some? then Some((ByIdempotencyKey, byKey.value))
    else
      var byHash := Resolve(f.records, f.byHash, t.partnerId, t.contentHash);
      if byHash.Some? then Some((ByContentHash, byHash.value))
      else if t.primaryKey in f.records then Some((ByPrimaryKey, f.records[t.primaryKey]))
      else None
  }

  /**
   * The order of the checks decides which record is reported: the record the key
   * index names wins over the one the hash index names, which wins over the record
   * stored under the primary key.
   */
  lemma MatchPrecedence<R>(f: Family<R>, t: Tokens)
    ensures var byKey := Resolve(f.records, f.byKey, t.partnerId, t.idempotencyKey);
            byKey.Some? ==> Match(f, t) == Some((ByIdempotencyKey, byKey.value))
    ensures var byKey := Resolve(f.records, f.byKey, t.partnerId, t.idempotencyKey);
            var byHash := Resolve(f.records, f.byHash, t.partnerId, t.contentHash);
            byKey.None? && byHash.Some? ==> Match(f, t) == Some((ByContentHash, byHash.value))
    ensures var byKey := Resolve(f.records, f.byKey, t.partnerId, t.idempotencyKey);
            var byHash := Resolve(f.records, f.byHash, t.partnerId, t.contentHash);
            byKey.None? && byHash.None? && t.primaryKey in f.records ==>
              Match(f, t) == Some((ByPrimaryKey, f.records[t.primaryKey]))
  {
  }

  /** Inserting a new record: the record under its primary key, each truthy token pointing at that key. */
  function Insert<R>(f: Family<R>, t: Tokens, r: R): Family<R>
  {
    Family(f.records[t.primaryKey := r],
           if Present(t.idempotencyKey) then f.byKey[Scoped(t.partnerId, t.idempotencyKey.value) := t.primaryKey] else f.byKey,
           if Present(t.contentHash) then f.byHash[Scoped(t.partnerId, t.contentHash.value) := t.primaryKey] else f.byHash)
  }

  /** saveOrder / saveError on values: a duplicate changes nothing; otherwise the record is inserted. */
  function Save<R>(f: Family<R>, t: Tokens, r: R): (out: (Family<R>, SaveResult<R>))
    ensures out.1.saved <==> !out.1.duplicate
    ensures out.1.duplicate <==> Match(f, t).Some?
    ensures out.1.duplicate ==> out.0 == f && out.1.existing == Some(Match(f, t).value.1)
    ensures out.1.saved ==> out.0 == Insert(f, t, r) && out.1.existing == None
  {
    match Match(f, t)
    case Some((_, existing)) => (f, SaveResult(false, true, Some(existing)))
    case None => (Insert(f, t, r), SaveResult(true, false, None))
  }

  /**
   * The store invariant for a family whose records are keyed by `keyOf`: each record
   * sits under its own primary key, no primary key is "", and every index entry
   * names a stored record.
   */
  ghost predicate FamilyValid<R>(f: Family<R>, keyOf: R -> string)
  {
    && (forall k :: k in f.records ==> keyOf(f.records[k]) == k && k != "")
    && (forall s :: s in f.byKey ==> f.byKey[s] in f.records)
    && (forall s :: s in f.byHash ==> f.byHash[s] in f.records)
  }

  /** `before` is kept inside `after`: every entry is still there, mapped to the same value. */
  ghost predicate Extends<K, V>(before: map<K, V>, after: map<K, V>)
  {
    forall k :: k in before ==> k in after && after[k] == before[k]
  }

  /** Tokens that describe record r: its primary key is keyOf(r), and that key is not "". */
  ghost predicate TokensOf<R>(t: Tokens, r: R, keyOf: R -> string)
  {
    t.primaryKey == keyOf(r) && t.primaryKey != ""
  }

  /** Under the invariant, an index entry for a truthy token always resolves. */
  lemma ValidIndexResolves<R>(f: Family<R>, keyOf: R -> string, index: map<string, string>, partnerId: string, token: Option<string>)
    requires FamilyValid(f, keyOf)
    requires index == f.byKey || index == f.byHash
    requires Present(token) && Scoped(partnerId, token.value) in index
    ensures Resolve(f.records, index, partnerId, token).Some?
  {
    var existingKey := index[Scoped(partnerId, token.value)];
    assert existingKey in f.records;
  }

  /** Every save keeps the invariant. */
  lemma SaveKeepsValid<R>(f: Family<R>, t: Tokens, r: R, keyOf: R -> string)
    requires FamilyValid(f, keyOf) && TokensOf(t, r, keyOf)
    ensures FamilyValid(Save(f, t, r).0, keyOf)
  {
  }

  /** Under the invariant, a save only adds entries: no record and no index entry is ever replaced or removed. */
  lemma SaveOnlyGrows<R>(f: Family<R>, t: Tokens, r: R, keyOf: R -> string)
    requires FamilyValid(f, keyOf)
    ensures var g := Save(f, t, r).0;
            Extends(f.records, g.records) && Extends(f.byKey, g.byKey) && Extends(f.byHash, g.byHash)
  {
    if Match(f, t).None? {
      if Present(t.idempotencyKey) && Scoped(t.partnerId, t.idempotencyKey.value) in f.byKey {
        ValidIndexResolves(f, keyOf, f.byKey, t.partnerId, t.idempotencyKey);
      }
      if Present(t.contentHash) && Scoped(t.partnerId, t.contentHash.value) in f.byHash {
        ValidIndexResolves(f, keyOf, f.byHash, t.partnerId, t.contentHash);
      }
    }
  }

  /** The record a duplicate check reports is the one its strategy names; by primary key, it has the same primary key. */
  lemma MatchNamesStoredRecord<R>(f: Family<R>, t: Tokens, keyOf: R -> string)
    requires FamilyValid(f, keyOf) && Match(f, t).Some?
    ensures Match(f, t).value.0 == ByPrimaryKey ==> keyOf(Match(f, t).value.1) == t.primaryKey
    ensures Match(f, t).value.0 == ByIdempotencyKey ==>
              Match(f, t).value.1 == f.records[f.byKey[Scoped(t.partnerId, t.idempotencyKey.value)]]
    ensures Match(f, t).value.0 == ByContentHash ==>
              Match(f, t).value.1 == f.records[f.byHash[Scoped(t.partnerId, t.contentHash.value)]]
  {
  }

  /** After an insert, the duplicate check for the same tokens finds the inserted record, whichever index it uses. */
  lemma InsertFindsItself<R>(f: Family<R>, t: Tokens, r: R)
    ensures Match(Insert(f, t, r), t).Some? && Match(Insert(f, t, r), t).value.1 == r
  {
    var g := Insert(f, t, r);
    if Present(t.idempotencyKey) && t.primaryKey != "" {
      assert g.byKey[Scoped(t.partnerId, t.idempotencyKey.value)] == t.primaryKey;
      assert Resolve(g.records, g.byKey, t.partnerId, t.idempotencyKey) == Some(r);
    } else if Present(t.contentHash) && t.primaryKey != "" {
      assert g.byHash[Scoped(t.partnerId, t.contentHash.value)] == t.primaryKey;
      assert Resolve(g.records, g.byHash, t.partnerId, t.contentHash) == Some(r);
    }
  }

  /** An insert under a new primary key adds exactly one record. */
  lemma InsertAddsOneRecord<R>(f: Family<R>, t: Tokens, r: R)
    requires t.primaryKey !in f.records
    ensures |Insert(f, t, r).records| == |f.records| + 1
  {
    assert Insert(f, t, r).records.Keys == f.records.Keys + {t.primaryKey};
  }

  /**
   * Idempotence: saving the same record twice saves it once and then reports it as
   * the duplicate; the store grows by exactly one record.
   */
  lemma SaveTwice<R>(f: Family<R>, t: Tokens, r: R, keyOf: R -> string)
    requires FamilyValid(f, keyOf) && TokensOf(t, r, keyOf)
    requires Match(f, t).None?
    ensures var (g, first) := Save(f, t, r);
            var (h, second) := Save(g, t, r);
            first == SaveResult(true, false, None)
            && second == SaveResult(false, true, Some(r))
            && h == g
            && |g.records| == |f.records| + 1
  {
    InsertFindsItself(f, t, r);
    InsertAddsOneRecord(f, t, r);
  }

  /**
   * A retry with the same truthy idempotency key finds the first record, whatever
   * else differs (a new sequence number, a different payload).
   */
  lemma RetryWithSameKeyIsDuplicate<R>(f: Family<R>, t1: Tokens, r1: R, t2: Tokens, r2: R, keyOf: R -> string)
    requires FamilyValid(f, keyOf) && TokensOf(t1, r1, keyOf)
    requires Save(f, t1, r1).1.saved
    requires Present(t1.idempotencyKey) && t2.partnerId == t1.partnerId && t2.idempotencyKey == t1.idempotencyKey
    ensures Save(Save(f, t1, r1).0, t2, r2) == (Save(f, t1, r1).0, SaveResult(false, true, Some(r1)))
  {
  }

  /** After a save, saved or duplicate, the duplicate check for the same tokens finds a stored record. */
  lemma SaveThenFound<R>(f: Family<R>, t: Tokens, r: R)
    ensures Match(Save(f, t, r).0, t).Some?
  {
    if Match(f, t).None? {
      InsertFindsItself(f, t, r);
    }
  }

  /** A new idempotency key does not hide a known content hash: the save is still a duplicate. */
  lemma KnownHashNewKeyIsDuplicate<R>(f: Family<R>, t: Tokens, r: R)
    requires Resolve(f.records, f.byKey, t.partnerId, t.idempotencyKey).None?
    requires Resolve(f.records, f.byHash, t.partnerId, t.contentHash).Some?
    ensures Save(f, t, r).1 == SaveResult(false, true, Resolve(f.records, f.byHash, t.partnerId, t.contentHash))
    ensures Match(f, t).value.0 == ByContentHash
  {
  }

  /** An empty family finds no duplicate. */
  lemma EmptyFamilyMatchesNothing<R>(t: Tokens)
    ensures Match(EmptyFamily<R>(), t).None?
  {
  }
}
