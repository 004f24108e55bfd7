/** The derived search index of agent/context/index.py: two tables kept in step, and vectors that may arrive late. */
module SearchIndex {
  import opened Options
  import opened SearchTexts

  // Session and turn ids, vectors and embedding providers are only compared for equality.
  datatype DocKey = DocKey(session: nat, turn: nat)
  datatype Document = Document(key: DocKey, turnIndex: int, parts: Parts)

  // A vector remembers the combined text of the document it was computed for.
  datatype Embedding = Embedding(values: nat, text: string, provider: nat)
  datatype Row = Row(turnIndex: int, parts: Parts, embedding: Option<Embedding>)

  // A row of the full-text table holds Searchable(parts); the table has no key.
  datatype FtsRow = FtsRow(key: DocKey, parts: Parts)

  datatype Index = Index(documents: map<DocKey, Row>, fts: seq<FtsRow>)

  // What a DELETE statement on the full-text table names.
  datatype Scope = OneDocument(key: DocKey) | WholeSession(session: nat)

  predicate InScope(scope: Scope, key: DocKey) {
    match scope
    case OneDocument(k) => key == k
    case WholeSession(session) => key.session == session
  }

  function Without(fts: seq<FtsRow>, scope: Scope): seq<FtsRow> {
    if fts == [] then []
    else (if InScope(scope, fts[0].key) then [] else [fts[0]]) + Without(fts[1..], scope)
  }

  // The full-text rows of a document.
  function RowsOf(fts: seq<FtsRow>, key: DocKey): seq<Parts> {
    if fts == [] then []
    else (if fts[0].key == key then [fts[0].parts] else []) + RowsOf(fts[1..], key)
  }

  // The document is new or its hash is another.
  predicate Changed(ix: Index, d: Document) {
    d.key !in ix.documents || Combined(ix.documents[d.key].parts) != Combined(d.parts)
  }

  // The columns are always written; the vector and the full-text row survive while the hash stays.
  function Upserted(ix: Index, d: Document): Index {
    if Changed(ix, d)
    then Index(ix.documents[d.key := Row(d.turnIndex, d.parts, None)],
               Without(ix.fts, OneDocument(d.key)) + [FtsRow(d.key, d.parts)])
    else ix.(documents := ix.documents[d.key := ix.documents[d.key].(turnIndex := d.turnIndex, parts := d.parts)])
  }

  function UpsertedAll(ix: Index, documents: seq<Document>): Index
    decreases |documents|
  {
    if documents == [] then ix else UpsertedAll(Upserted(ix, documents[0]), documents[1..])
  }

  // An UPDATE of the row that still has the hash of the embedded document.
  function Embedded(ix: Index, d: Document, values: nat, provider: nat): Index {
    if Changed(ix, d) then ix
    else ix.(documents := ix.documents[d.key := ix.documents[d.key].(
               embedding := Some(Embedding(values, Combined(d.parts), provider)))])
  }

  function EmbeddedAll(ix: Index, documents: seq<Document>, vectors: seq<nat>, provider: nat): Index
    requires |documents| == |vectors|
    decreases |documents|
  {
    if documents == [] then ix
    else EmbeddedAll(Embedded(ix, documents[0], vectors[0], provider), documents[1..], vectors[1..], provider)
  }

  function SessionDeleted(ix: Index, session: nat): Index {
    Index(map k | k in ix.documents && k.session != session :: ix.documents[k],
          Without(ix.fts, WholeSession(session)))
  }

  // ----- runs -----

  // A batch of vectors may belong to documents read at any earlier time.
  datatype Op =
    | Upsert(documents: seq<Document>)
    | UpsertEmbeddings(read: seq<Document>, vectors: seq<nat>, provider: nat)
    | DeleteSession(session: nat)

  function Step(ix: Index, op: Op): Index {
    match op
    case Upsert(documents) => UpsertedAll(ix, documents)
    case UpsertEmbeddings(read, vectors, provider) =>
      if |read| != |vectors| then ix else EmbeddedAll(ix, read, vectors, provider)
    case DeleteSession(session) => SessionDeleted(ix, session)
  }

  function After(ix: Index, ops: seq<Op>): Index
    decreases |ops|
  {
    if ops == [] then ix else After(Step(ix, ops[0]), ops[1..])
  }

  const EMPTY := Index(map[], [])

  // ----- invariants -----

  // One full-text row, written from a version of the document with the current hash.
  predicate OneRow(rows: seq<Parts>, current: Parts) {
    |rows| == 1 && Combined(rows[0]) == Combined(current)
  }

  /** The full-text table has exactly one row for every stored document and none besides. */
  ghost predicate FtsAgrees(ix: Index) {
    forall k :: if k in ix.documents then OneRow(RowsOf(ix.fts, k), ix.documents[k].parts) else RowsOf(ix.fts, k) == []
  }

  /** A stored vector was computed for the current hash of its row. */
  predicate VectorsCurrent(ix: Index) {
    forall k :: k in ix.documents && ix.documents[k].embedding.Some? ==>
      ix.documents[k].embedding.value.text == Combined(ix.documents[k].parts)
  }

  ghost predicate Sound(ix: Index) {
    FtsAgrees(ix) && VectorsCurrent(ix)
  }

  lemma RowsOfCons(row: FtsRow, rest: seq<FtsRow>, key: DocKey)
    ensures RowsOf([row] + rest, key) == (if row.key == key then [row.parts] else []) + RowsOf(rest, key)
  {
    assert ([row] + rest)[1..] == rest;
  }

  lemma {:induction false} RowsOfWithout(fts: seq<FtsRow>, scope: Scope, key: DocKey)
    ensures RowsOf(Without(fts, scope), key) == if InScope(scope, key) then [] else RowsOf(fts, key)
  {
    if fts != [] {
      RowsOfWithout(fts[1..], scope, key);
      RowsOfCons(fts[0], Without(fts[1..], scope), key);
      assert InScope(scope, fts[0].key) ==> Without(fts, scope) == Without(fts[1..], scope);
    }
  }

  lemma {:induction false} RowsOfAppend(fts: seq<FtsRow>, row: FtsRow, key: DocKey)
    ensures RowsOf(fts + [row], key) == RowsOf(fts, key) + if row.key == key then [row.parts] else []
  {
    if fts == [] {
      assert fts + [row] == [row] && [row][1..] == [];
    } else {
      RowsOfAppend(fts[1..], row, key);
      assert (fts + [row])[1..] == fts[1..] + [row];
    }
  }

  lemma UpsertRows(ix: Index, d: Document, key: DocKey)
    ensures RowsOf(Upserted(ix, d).fts, key)
         == if Changed(ix, d) && key == d.key then [d.parts] else RowsOf(ix.fts, key)
  {
    if Changed(ix, d) {
      RowsOfWithout(ix.fts, OneDocument(d.key), key);
      RowsOfAppend(Without(ix.fts, OneDocument(d.key)), FtsRow(d.key, d.parts), key);
    }
  }

  // A changed document replaces its row and its full-text row.
  lemma ChangedSound(ix: Index, d: Document)
    requires Sound(ix) && Changed(ix, d)
    ensures Sound(Upserted(ix, d))
  {
    var after := Upserted(ix, d);
    forall k | true
      ensures if k in after.documents then OneRow(RowsOf(after.fts, k), after.documents[k].parts)
              else RowsOf(after.fts, k) == []
    {
      UpsertRows(ix, d, k);
    }
  }

  // An unchanged one keeps its full-text row, which has its hash.
  lemma UnchangedSound(ix: Index, d: Document)
    requires Sound(ix) && !Changed(ix, d)
    ensures Sound(Upserted(ix, d))
  {}

  lemma UpsertSound(ix: Index, d: Document)
    requires Sound(ix)
    ensures Sound(Upserted(ix, d))
  {
    if Changed(ix, d) {
      ChangedSound(ix, d);
    } else {
      UnchangedSound(ix, d);
    }
  }

  lemma {:induction false} UpsertAllSound(ix: Index, documents: seq<Document>)
    requires Sound(ix)
    ensures Sound(UpsertedAll(ix, documents))
    decreases |documents|
  {
    if documents != [] {
      UpsertSound(ix, documents[0]);
      UpsertAllSound(Upserted(ix, documents[0]), documents[1..]);
    }
  }

  lemma EmbedSound(ix: Index, d: Document, values: nat, provider: nat)
    requires Sound(ix)
    ensures Sound(Embedded(ix, d, values, provider))
  {}

  lemma {:induction false} EmbedAllSound(ix: Index, documents: seq<Document>, vectors: seq<nat>, provider: nat)
    requires Sound(ix) && |documents| == |vectors|
    ensures Sound(EmbeddedAll(ix, documents, vectors, provider))
    decreases |documents|
  {
    if documents != [] {
      EmbedSound(ix, documents[0], vectors[0], provider);
      EmbedAllSound(Embedded(ix, documents[0], vectors[0], provider), documents[1..], vectors[1..], provider);
    }
  }

  lemma DeleteSound(ix: Index, session: nat)
    requires Sound(ix)
    ensures Sound(SessionDeleted(ix, session))
  {
    forall k | true
      ensures RowsOf(SessionDeleted(ix, session).fts, k) == if k.session == session then [] else RowsOf(ix.fts, k)
    {
      RowsOfWithout(ix.fts, WholeSession(session), k);
    }
  }

  /** After any run of upserts, late or early vectors and deletions: one full-text row per document, and every
      stored vector was computed for the current hash of its row. */
  lemma {:induction false} RunSound(ix: Index, ops: seq<Op>)
    requires Sound(ix)
    ensures Sound(After(ix, ops))
    decreases |ops|
  {
    if ops != [] {
      match ops[0] {
        case Upsert(documents) => UpsertAllSound(ix, documents);
        case UpsertEmbeddings(read, vectors, provider) =>
          if |read| == |vectors| {
            EmbedAllSound(ix, read, vectors, provider);
          }
        case DeleteSession(session) => DeleteSound(ix, session);
      }
      RunSound(Step(ix, ops[0]), ops[1..]);
    }
  }

  // The document is found under its current text.
  predicate Indexed(ix: Index, key: DocKey) {
    key in ix.documents && |RowsOf(ix.fts, key)| == 1
    && Searchable(RowsOf(ix.fts, key)[0]) == Searchable(ix.documents[key].parts)
  }

  /** A new version of an indexed document is indexed under its own text exactly when its hash differs from the old
      one's or its text does not: a shared hash leaves the old text in the full-text table. */
  lemma ReindexedIff(ix: Index, d: Document)
    requires Sound(ix) && Indexed(ix, d.key)
    ensures Indexed(Upserted(ix, d), d.key) <==>
      (Combined(d.parts) != Combined(ix.documents[d.key].parts)
       || Searchable(d.parts) == Searchable(ix.documents[d.key].parts))
  {
    UpsertRows(ix, d, d.key);
  }

  /** In a sound index a document is found under its current text whenever the version its row was written from has
      the same empty parts and no gap in the middle. */
  lemma IndexedWithoutGaps(ix: Index, key: DocKey)
    requires Sound(ix) && key in ix.documents
    requires SameGaps(RowsOf(ix.fts, key)[0], ix.documents[key].parts) && !MiddleGap(ix.documents[key].parts)
    ensures Indexed(ix, key)
  {
    assert OneRow(RowsOf(ix.fts, key), ix.documents[key].parts);
    SameHashSameText(ix.documents[key].parts, RowsOf(ix.fts, key)[0]);
  }

  // ----- rebuilding a session -----

  // The last version of a document in a batch.
  function LastOf(batch: seq<Document>, key: DocKey): Option<Document> {
    if batch == [] then None
    else if LastOf(batch[1..], key).Some? then LastOf(batch[1..], key)
    else if batch[0].key == key then Some(batch[0])
    else None
  }

  // What a batch makes of one row.
  predicate RowAfter(before: map<DocKey, Row>, after: map<DocKey, Row>, key: DocKey, last: Option<Document>) {
    if last.None? then (key in after <==> key in before) && (key in before ==> after[key] == before[key])
    else
      && key in after && after[key].turnIndex == last.value.turnIndex && after[key].parts == last.value.parts
      && (key !in before || before[key].embedding.None? ==> after[key].embedding.None?)
  }

  lemma {:induction false} BatchRows(ix: Index, batch: seq<Document>, key: DocKey)
    ensures RowAfter(ix.documents, UpsertedAll(ix, batch).documents, key, LastOf(batch, key))
    decreases |batch|
  {
    if batch != [] {
      BatchRows(Upserted(ix, batch[0]), batch[1..], key);
    }
  }

  predicate EachOnce(batch: seq<Document>) {
    forall i, j :: 0 <= i < j < |batch| ==> batch[i].key != batch[j].key
  }

  lemma {:induction false} BatchFts(ix: Index, batch: seq<Document>, key: DocKey)
    requires EachOnce(batch) && key !in ix.documents
    ensures LastOf(batch, key).Some? ==> RowsOf(UpsertedAll(ix, batch).fts, key) == [LastOf(batch, key).value.parts]
    decreases |batch|
  {
    if batch != [] {
      var next := Upserted(ix, batch[0]);
      UpsertRows(ix, batch[0], key);
      if batch[0].key == key {
        NotAgain(batch, key);
        BatchLeaves(next, batch[1..], key);
      } else {
        BatchFts(next, batch[1..], key);
      }
    }
  }

  lemma NotAgain(batch: seq<Document>, key: DocKey)
    requires EachOnce(batch) && batch != [] && batch[0].key == key
    ensures LastOf(batch[1..], key).None?
  {
    NoneOf(batch[1..], key);
  }

  lemma {:induction false} NoneOf(batch: seq<Document>, key: DocKey)
    requires forall i :: 0 <= i < |batch| ==> batch[i].key != key
    ensures LastOf(batch, key).None?
  {
    if batch != [] {
      NoneOf(batch[1..], key);
    }
  }

  // A document that is not in the batch keeps its full-text rows.
  lemma {:induction false} BatchLeaves(ix: Index, batch: seq<Document>, key: DocKey)
    requires LastOf(batch, key).None?
    ensures RowsOf(UpsertedAll(ix, batch).fts, key) == RowsOf(ix.fts, key)
    decreases |batch|
  {
    if batch != [] {
      UpsertRows(ix, batch[0], key);
      BatchLeaves(Upserted(ix, batch[0]), batch[1..], key);
    }
  }

  // The documents of the session are the last versions in the batch, without vectors; a document of another session
  // that is not in the batch is as it was, and so are its full-text rows.
  ghost predicate Rebuilt(before: Index, after: Index, session: nat, batch: seq<Document>) {
    forall k: DocKey :: var last := LastOf(batch, k);
      if k.session == session
      then (k in after.documents <==> last.Some?)
           && (last.Some? ==> after.documents[k] == Row(last.value.turnIndex, last.value.parts, None))
      else last.None? ==>
             RowAfter(before.documents, after.documents, k, None) && RowsOf(after.fts, k) == RowsOf(before.fts, k)
  }

  lemma RebuildMeans(ix: Index, session: nat, batch: seq<Document>)
    ensures Rebuilt(ix, UpsertedAll(SessionDeleted(ix, session), batch), session, batch)
  {
    var deleted := SessionDeleted(ix, session);
    forall k: DocKey
      ensures RowAfter(deleted.documents, UpsertedAll(deleted, batch).documents, k, LastOf(batch, k))
      ensures LastOf(batch, k).None? && k.session != session ==>
        RowsOf(UpsertedAll(deleted, batch).fts, k) == RowsOf(ix.fts, k)
    {
      BatchRows(deleted, batch, k);
      RowsOfWithout(ix.fts, WholeSession(session), k);
      if LastOf(batch, k).None? {
        BatchLeaves(deleted, batch, k);
      }
    }
  }

  /** A rebuild from documents that each come once repairs every stale text of the session, whatever was stored. */
  lemma RebuildRepairs(ix: Index, session: nat, batch: seq<Document>, key: DocKey)
    requires EachOnce(batch) && key.session == session && LastOf(batch, key).Some?
    ensures Indexed(UpsertedAll(SessionDeleted(ix, session), batch), key)
  {
    var deleted := SessionDeleted(ix, session);
    BatchRows(deleted, batch, key);
    BatchFts(deleted, batch, key);
  }

  // ----- backfilling vectors -----

  // The documents of a session without a vector of the provider.
  function Missing(ix: Index, session: nat, provider: nat): set<DocKey> {
    set k | k in ix.documents && k.session == session
            && (ix.documents[k].embedding.None? || ix.documents[k].embedding.value.provider != provider)
  }

  predicate Current(ix: Index, d: Document) {
    d.key in ix.documents && ix.documents[d.key].parts == d.parts
  }

  // Only vectors differ.
  predicate SameTexts(ix: Index, other: Index) {
    && ix.fts == other.fts && ix.documents.Keys == other.documents.Keys
    && forall k :: k in ix.documents ==> other.documents[k].parts == ix.documents[k].parts
  }

  ghost predicate HasKey(documents: seq<Document>, k: DocKey) {
    exists i :: 0 <= i < |documents| && documents[i].key == k
  }

  lemma EmbedOne(ix: Index, d: Document, values: nat, provider: nat, session: nat)
    requires Current(ix, d)
    ensures SameTexts(ix, Embedded(ix, d, values, provider))
    ensures Missing(Embedded(ix, d, values, provider), session, provider) == Missing(ix, session, provider) - {d.key}
  {}

  /** Vectors for current documents take exactly these documents off the list. */
  lemma {:induction false} EmbedBatch(ix: Index, batch: seq<Document>, vectors: seq<nat>, provider: nat, session: nat)
    requires |batch| == |vectors| && forall d :: d in batch ==> Current(ix, d)
    ensures SameTexts(ix, EmbeddedAll(ix, batch, vectors, provider))
    ensures forall k :: k in Missing(EmbeddedAll(ix, batch, vectors, provider), session, provider) <==>
      k in Missing(ix, session, provider) && !HasKey(batch, k)
    decreases |batch|
  {
    if batch != [] {
      var d, next := batch[0], Embedded(ix, batch[0], vectors[0], provider);
      assert d in batch;
      EmbedOne(ix, d, vectors[0], provider, session);
      assert forall e :: e in batch[1..] ==> e in batch;
      EmbedBatch(next, batch[1..], vectors[1..], provider, session);
      forall k ensures HasKey(batch, k) <==> k == d.key || HasKey(batch[1..], k) {
        HasKeyCons(batch, k);
      }
    }
  }

  lemma HasKeyCons(batch: seq<Document>, k: DocKey)
    requires batch != []
    ensures HasKey(batch, k) <==> k == batch[0].key || HasKey(batch[1..], k)
  {
    if HasKey(batch, k) && k != batch[0].key {
      var i :| 0 <= i < |batch| && batch[i].key == k;
      assert batch[1..][i - 1].key == k;
    }
    if HasKey(batch[1..], k) {
      var i :| 0 <= i < |batch[1..]| && batch[1..][i].key == k;
      assert batch[i + 1].key == k;
    }
  }

  // The documents read are current, and those still missing a vector are among the ones from `offset` on.
  ghost predicate Filling(ix: Index, documents: seq<Document>, offset: nat, session: nat, provider: nat) {
    && offset <= |documents| && (forall d :: d in documents ==> Current(ix, d))
    && forall k :: k in Missing(ix, session, provider) ==> HasKey(documents[offset..], k)
  }

  lemma FillStep(ix: Index, documents: seq<Document>, offset: nat, end: nat, vectors: seq<nat>, session: nat,
                 provider: nat)
    requires Filling(ix, documents, offset, session, provider) && offset <= end <= |documents|
    requires |vectors| == end - offset
    ensures Filling(EmbeddedAll(ix, documents[offset..end], vectors, provider), documents, end, session, provider)
    ensures SameTexts(ix, EmbeddedAll(ix, documents[offset..end], vectors, provider))
  {
    var batch := documents[offset..end];
    assert forall d :: d in batch ==> d in documents;
    EmbedBatch(ix, batch, vectors, provider, session);
    var after := EmbeddedAll(ix, batch, vectors, provider);
    forall k | k in Missing(after, session, provider) ensures HasKey(documents[end..], k) {
      HasKeySplit(documents, offset, end, k);
    }
  }

  lemma HasKeySplit(documents: seq<Document>, offset: nat, end: nat, k: DocKey)
    requires offset <= end <= |documents| && HasKey(documents[offset..], k)
    ensures HasKey(documents[offset..end], k) || HasKey(documents[end..], k)
  {
    var i :| 0 <= i < |documents[offset..]| && documents[offset..][i].key == k;
    if offset + i < end {
      assert documents[offset..end][i].key == k;
    } else {
      assert documents[end..][offset + i - end].key == k;
    }
  }

  // Documents that have no vector yet, at most as many as the provider takes at once.
  predicate BatchOf(x: Index, batch: seq<Document>, session: nat, provider: nat, providerBatch: int) {
    && 0 < |batch| <= (if providerBatch < 1 then 1 else providerBatch)
    && forall d :: d in batch ==> d.key in Missing(x, session, provider)
  }

  // The provider gives no answer for the batch, or one of the wrong length.
  predicate EmbedFails(embed: (nat, seq<Document>) -> Option<seq<nat>>, offset: nat, batch: seq<Document>) {
    embed(offset, batch).None? || |embed(offset, batch).value| != |batch|
  }

  class SearchIndex {
    var documents: map<DocKey, Row>
    var fts: seq<FtsRow>

    constructor ()
      ensures Contents() == EMPTY
    {
      documents, fts := map[], [];
    }

    ghost function Contents(): Index
      reads this
    {
      Index(documents, fts)
    }

    method Upsert(batch: seq<Document>)
      modifies this
      ensures Contents() == UpsertedAll(old(Contents()), batch)
    {
      ghost var all := UpsertedAll(Contents(), batch);
      for i := 0 to |batch|
        invariant UpsertedAll(Contents(), batch[i..]) == all
      {
        UpsertOne(batch[i]);
        assert batch[i..][1..] == batch[i + 1..];
      }
    }

    method UpsertOne(d: Document)
      modifies this
      ensures Contents() == Upserted(old(Contents()), d)
    {
      var existing := if d.key in documents then Some(documents[d.key]) else None;
      var changed := existing.None? || Combined(existing.value.parts) != Combined(d.parts);
      documents := documents[d.key := Row(d.turnIndex, d.parts, if changed then None else existing.value.embedding)];
      if changed {
        fts := Without(fts, OneDocument(d.key));
        fts := fts + [FtsRow(d.key, d.parts)];
      }
    }

    /** Rejects lists of different lengths; otherwise each vector reaches its row only if the hash is still the same. */
    method UpsertVectors(read: seq<Document>, vectors: seq<nat>, provider: nat) returns (ok: bool)
      modifies this`documents
      ensures ok == (|read| == |vectors|)
      ensures Contents() == if |read| == |vectors| then EmbeddedAll(old(Contents()), read, vectors, provider)
                            else old(Contents())
    {
      if |read| != |vectors| {
        return false;
      }
      ghost var all := EmbeddedAll(Contents(), read, vectors, provider);
      for i := 0 to |read|
        invariant EmbeddedAll(Contents(), read[i..], vectors[i..], provider) == all
      {
        var d := read[i];
        if d.key in documents && Combined(documents[d.key].parts) == Combined(d.parts) {
          documents := documents[d.key := documents[d.key].(
            embedding := Some(Embedding(vectors[i], Combined(d.parts), provider)))];
        }
        assert read[i..][1..] == read[i + 1..] && vectors[i..][1..] == vectors[i + 1..];
      }
      return true;
    }

    method DeleteSession(session: nat)
      modifies this
      ensures Contents() == SessionDeleted(old(Contents()), session)
    {
      fts := Without(fts, WholeSession(session));
      documents := map k | k in documents && k.session != session :: documents[k];
    }

    /** Afterwards the documents of the session are exactly the last versions in the batch, without vectors, and each
        that comes once is found under its current text, whatever was stored before; other documents stay. */
    method RebuildSession(session: nat, batch: seq<Document>)
      modifies this
      ensures Contents() == UpsertedAll(SessionDeleted(old(Contents()), session), batch)
      ensures Rebuilt(old(Contents()), Contents(), session, batch)
      ensures EachOnce(batch) ==> forall k :: k in documents && k.session == session ==> Indexed(Contents(), k)
      ensures Sound(old(Contents())) ==> Sound(Contents())
    {
      ghost var before := Contents();
      DeleteSession(session);
      Upsert(batch);
      RebuildMeans(before, session, batch);
      if EachOnce(batch) {
        forall k | k in documents && k.session == session ensures Indexed(Contents(), k) {
          RebuildRepairs(before, session, batch, k);
        }
      }
      if Sound(before) {
        DeleteSound(before, session);
        UpsertAllSound(SessionDeleted(before, session), batch);
      }
    }

    method MissingEmbeddings(session: nat, provider: nat) returns (missing: seq<Document>)
      ensures Filling(Contents(), missing, 0, session, provider)
      ensures forall d :: d in missing ==> d.key in Missing(Contents(), session, provider)
    {
      missing := [];
      ghost var all := Missing(Contents(), session, provider);
      var rest := Missing(Index(documents, fts), session, provider);
      while rest != {}
        invariant rest <= all && (forall d :: d in missing ==> d.key in all && Current(Contents(), d))
        invariant forall k :: k in all ==> k in rest || HasKey(missing, k)
        decreases |rest|
      {
        var key :| key in rest;
        var d := Document(key, documents[key].turnIndex, documents[key].parts);
        KeyAppended(missing, d);
        missing := missing + [d];
        rest := rest - {key};
      }
      assert missing[0..] == missing;
    }

    /** Embeds what is missing batch by batch until a batch fails, either in the provider (no reply) or by a reply of
        the wrong length. Texts and full-text rows stay; without a failure nothing is missing any more. */
    method BackfillEmbeddings(session: nat, provider: nat, providerBatch: int,
                              embed: (nat, seq<Document>) -> Option<seq<nat>>) returns (degraded: bool)
      modifies this`documents
      ensures SameTexts(old(Contents()), Contents())
      ensures !degraded ==> Missing(Contents(), session, provider) == {}
      ensures degraded ==> exists offset: nat, batch: seq<Document> ::
        BatchOf(old(Contents()), batch, session, provider, providerBatch) && EmbedFails(embed, offset, batch)
      ensures Sound(old(Contents())) ==> Sound(Contents())
    {
      var batchSize := if providerBatch < 1 then 1 else providerBatch;
      ghost var before := Contents();
      var missing := MissingEmbeddings(session, provider);
      var offset: nat := 0;
      degraded := false;
      while offset < |missing| && !degraded
        invariant Filling(Contents(), missing, offset, session, provider)
        invariant SameTexts(before, Contents()) && (Sound(before) ==> Sound(Contents()))
        invariant degraded ==> exists at: nat, batch: seq<Document> ::
          BatchOf(before, batch, session, provider, providerBatch) && EmbedFails(embed, at, batch)
        decreases |missing| - offset, !degraded
      {
        var end := if offset + batchSize <= |missing| then offset + batchSize else |missing|;
        var batch := missing[offset..end];
        var reply := embed(offset, batch);
        if reply.None? || |reply.value| != end - offset {
          degraded := true;
          assert BatchOf(before, batch, session, provider, providerBatch) && EmbedFails(embed, offset, batch);
        } else {
          FillStep(Contents(), missing, offset, end, reply.value, session, provider);
          if Sound(Contents()) {
            EmbedAllSound(Contents(), missing[offset..end], reply.value, provider);
          }
          var ok := UpsertVectors(missing[offset..end], reply.value, provider);
          offset := end;
        }
      }
    }
  }

  lemma KeyAppended(documents: seq<Document>, d: Document)
    ensures forall k :: HasKey(documents, k) || k == d.key ==> HasKey(documents + [d], k)
  {
    var all := documents + [d];
    forall k | HasKey(documents, k) || k == d.key ensures HasKey(all, k) {
      if k == d.key {
        assert all[|documents|].key == k;
      } else {
        var i :| 0 <= i < |documents| && documents[i].key == k;
        assert all[i].key == k;
      }
    }
  }
}
