/** The document query builders of `src/documents.rs`. Each query refers to
    its index and holds optional parameters that its setters assign in place;
    serialising a query keeps the parameters that are present, in declaration
    order, and never the index. */
module Documents {
  import opened Prelude

  /** The index a query is addressed to (`&Index`). */
  datatype IndexRef = IndexRef(uid: string)

  /** A serialised query parameter before query-string encoding. */
  datatype QueryValue = Number(n: USize) | Names(names: seq<string>) | Text(text: string)

  type QueryPairs = seq<(string, QueryValue)>

  /** The keys of a serialised query, in order. */
  function Keys(q: QueryPairs): (ks: seq<string>)
    ensures |ks| == |q| && forall i :: 0 <= i < |q| ==> ks[i] == q[i].0
  {
    if q == [] then [] else [q[0].0] + Keys(q[1..])
  }

  /** The value serialised under `key`, if the key is present. */
  function Lookup(q: QueryPairs, key: string): Option<QueryValue>
  {
    if q == [] then None else if q[0].0 == key then Some(q[0].1) else Lookup(q[1..], key)
  }

  /** Keys distribute over concatenation. */
  lemma {:induction false} KeysAppend(a: QueryPairs, b: QueryPairs)
    ensures Keys(a + b) == Keys(a) + Keys(b)
  {
    if a != [] {
      assert (a + b)[1..] == a[1..] + b;
      KeysAppend(a[1..], b);
    }
  }

  /** Looking a key up in a concatenation finds it in the first part when it
      is there, and in the second part otherwise. */
  lemma {:induction false} LookupAppend(a: QueryPairs, b: QueryPairs, key: string)
    ensures Lookup(a + b, key) == if key in Keys(a) then Lookup(a, key) else Lookup(b, key)
  {
    if a != [] {
      assert (a + b)[0] == a[0] && (a + b)[1..] == a[1..] + b;
      assert key in Keys(a) <==> key == a[0].0 || key in Keys(a[1..]);
      if a[0].0 != key {
        LookupAppend(a[1..], b, key);
      }
    } else {
      assert a + b == b;
    }
  }

  /** The one-pair query for a parameter that is present, and nothing for one
      that is absent. */
  function Param(key: string, v: Option<QueryValue>): QueryPairs
  {
    if v.Some? then [(key, v.value)] else []
  }

  /** A one-parameter query has the parameter's key when it is present, and
      holds its value under that key only. */
  lemma ParamFacts(key: string, v: Option<QueryValue>, k: string)
    ensures Keys(Param(key, v)) == if v.Some? then [key] else []
    ensures Lookup(Param(key, v), k) == if k == key then v else None
  {
  }

  /** Looking a key up in three consecutive parts finds it in the first part
      that has it. */
  lemma LookupThree(a: QueryPairs, b: QueryPairs, c: QueryPairs, key: string)
    ensures Lookup(a + b + c, key)
         == if key in Keys(a) then Lookup(a, key) else if key in Keys(b) then Lookup(b, key) else Lookup(c, key)
  {
    KeysAppend(a, b);
    LookupAppend(a + b, c, key);
    LookupAppend(a, b, key);
  }

  /** The keys the three parameters serialise under, in order. */
  function PresentKeys(offset: bool, limit: bool, fields: bool): seq<string> {
    (if offset then ["offset"] else []) + (if limit then ["limit"] else []) + (if fields then ["fields"] else [])
  }

  /** Each present key is one of the three, and none appears twice. */
  lemma PresentKeysFacts(offset: bool, limit: bool, fields: bool)
    ensures var ks := PresentKeys(offset, limit, fields);
            && ("offset" in ks <==> offset) && ("limit" in ks <==> limit) && ("fields" in ks <==> fields)
            && (forall k :: k in ks ==> k in {"offset", "limit", "fields"})
            && (forall i, j :: 0 <= i < j < |ks| ==> ks[i] != ks[j])
  {
  }

  /** The serialisation of a `DocumentsQuery`: the present parameters among
      offset, limit and fields, in that order. */
  function SerializeDocumentsQuery(offset: Option<USize>, limit: Option<USize>, fields: Option<seq<string>>): (q: QueryPairs)
    ensures Keys(q) == PresentKeys(offset.Some?, limit.Some?, fields.Some?)
  {
    var o := Param("offset", if offset.Some? then Some(Number(offset.value)) else None);
    var l := Param("limit", if limit.Some? then Some(Number(limit.value)) else None);
    var f := Param("fields", if fields.Some? then Some(Names(fields.value)) else None);
    KeysAppend(o, l);
    KeysAppend(o + l, f);
    ParamFacts("offset", if offset.Some? then Some(Number(offset.value)) else None, "");
    ParamFacts("limit", if limit.Some? then Some(Number(limit.value)) else None, "");
    ParamFacts("fields", if fields.Some? then Some(Names(fields.value)) else None, "");
    o + l + f
  }

  /** A serialised documents query holds "offset", "limit" and "fields"
      exactly when they are present, no other key (so never the index), and
      no key twice. */
  lemma DocumentsQueryKeys(offset: Option<USize>, limit: Option<USize>, fields: Option<seq<string>>)
    ensures var q := SerializeDocumentsQuery(offset, limit, fields);
            && ("offset" in Keys(q) <==> offset.Some?)
            && ("limit" in Keys(q) <==> limit.Some?)
            && ("fields" in Keys(q) <==> fields.Some?)
            && (forall k :: k in Keys(q) ==> k in {"offset", "limit", "fields"})
            && (forall i, j :: 0 <= i < j < |q| ==> q[i].0 != q[j].0)
  {
    var q := SerializeDocumentsQuery(offset, limit, fields);
    PresentKeysFacts(offset.Some?, limit.Some?, fields.Some?);
  }

  /** The serialisation is the three one-parameter queries in order. */
  lemma SerializedParams(offset: Option<USize>, limit: Option<USize>, fields: Option<seq<string>>)
    ensures SerializeDocumentsQuery(offset, limit, fields)
         == Param("offset", if offset.Some? then Some(Number(offset.value)) else None)
          + Param("limit", if limit.Some? then Some(Number(limit.value)) else None)
          + Param("fields", if fields.Some? then Some(Names(fields.value)) else None)
  {
  }

  /** Reads the three parameters back from a serialised query. */
  function DecodeDocumentsQuery(q: QueryPairs): (Option<USize>, Option<USize>, Option<seq<string>>)
  {
    (match Lookup(q, "offset") case Some(Number(n)) => Some(n) case _ => None,
     match Lookup(q, "limit") case Some(Number(n)) => Some(n) case _ => None,
     match Lookup(q, "fields") case Some(Names(fs)) => Some(fs) case _ => None)
  }

  /** Serialising a documents query loses nothing: every parameter, present
      or absent, is read back as it was. */
  lemma DocumentsQueryRoundTrip(offset: Option<USize>, limit: Option<USize>, fields: Option<seq<string>>)
    ensures DecodeDocumentsQuery(SerializeDocumentsQuery(offset, limit, fields)) == (offset, limit, fields)
  {
    var ov := if offset.Some? then Some(Number(offset.value)) else None;
    var lv := if limit.Some? then Some(Number(limit.value)) else None;
    var fv := if fields.Some? then Some(Names(fields.value)) else None;
    var o, l, f := Param("offset", ov), Param("limit", lv), Param("fields", fv);
    SerializedParams(offset, limit, fields);
    LookupThree(o, l, f, "offset");
    LookupThree(o, l, f, "limit");
    LookupThree(o, l, f, "fields");
    ParamFacts("offset", ov, "offset");
    ParamFacts("limit", lv, "offset");
    ParamFacts("fields", fv, "offset");
    ParamFacts("limit", lv, "limit");
    ParamFacts("fields", fv, "limit");
    ParamFacts("fields", fv, "fields");
  }

  /** The serialisation of a `DocumentQuery`: the fields when present. */
  function SerializeDocumentQuery(fields: Option<seq<string>>): (q: QueryPairs)
    ensures Keys(q) == if fields.Some? then ["fields"] else []
    ensures fields.Some? ==> Lookup(q, "fields") == Some(Names(fields.value))
  {
    if fields.Some? then [("fields", Names(fields.value))] else []
  }

  /** `DocumentQuery`: the parameters of a single-document fetch. */
  class DocumentQuery {
    const index: IndexRef
    var fields: Option<seq<string>>

    /** `DocumentQuery::new`: no fields selected. */
    constructor (index: IndexRef)
      ensures this.index == index && fields == None
    {
      this.index := index;
      fields := None;
    }

    /** `with_fields`: selects the fields, in order, and returns the same
        query for chaining. */
    method WithFields(fs: seq<string>) returns (r: DocumentQuery)
      modifies this`fields
      ensures fields == Some(fs) && r == this
    {
      fields := Some(fs);
      r := this;
    }
  }

  /** `DocumentsQuery`: the parameters of a documents listing. */
  class DocumentsQuery {
    const index: IndexRef
    var offset: Option<USize>
    var limit: Option<USize>
    var fields: Option<seq<string>>

    /** `DocumentsQuery::new`: no parameter set. */
    constructor (index: IndexRef)
      ensures this.index == index && offset == None && limit == None && fields == None
    {
      this.index := index;
      offset, limit, fields := None, None, None;
    }

    /** `with_offset`: sets the offset only. */
    method WithOffset(n: USize) returns (r: DocumentsQuery)
      modifies this`offset
      ensures offset == Some(n) && r == this
      ensures limit == old(limit) && fields == old(fields)
    {
      offset := Some(n);
      r := this;
    }

    /** `with_limit`: sets the limit only. */
    method WithLimit(n: USize) returns (r: DocumentsQuery)
      modifies this`limit
      ensures limit == Some(n) && r == this
      ensures offset == old(offset) && fields == old(fields)
    {
      limit := Some(n);
      r := this;
    }

    /** `with_fields`: selects the fields, in order; nothing else changes. */
    method WithFields(fs: seq<string>) returns (r: DocumentsQuery)
      modifies this`fields
      ensures fields == Some(fs) && r == this
      ensures offset == old(offset) && limit == old(limit)
    {
      fields := Some(fs);
      r := this;
    }

    /** The query parameters this query sends. */
    function Serialized(): QueryPairs
      reads this
    {
      SerializeDocumentsQuery(offset, limit, fields)
    }
  }

  /** The serialisation of a `DocumentDeletionQuery`: the filter, always,
      even when it is empty. */
  function SerializeDocumentDeletionQuery(filter: string): (q: QueryPairs)
    ensures Keys(q) == ["filter"]
    ensures Lookup(q, "filter") == Some(Text(filter))
  {
    [("filter", Text(filter))]
  }

  /** `DocumentDeletionQuery`: the filter of a delete-by-filter request. */
  class DocumentDeletionQuery {
    const index: IndexRef
    var filter: string

    /** `DocumentDeletionQuery::new`: the empty filter. */
    constructor (index: IndexRef)
      ensures this.index == index && filter == ""
    {
      this.index := index;
      filter := "";
    }

    /** `with_filter`: replaces the filter. */
    method WithFilter(f: string) returns (r: DocumentDeletionQuery)
      modifies this`filter
      ensures filter == f && r == this
    {
      filter := f;
      r := this;
    }
  }

  /** The chain of the listing test: limit, then offset, then fields. The
      resulting query sends all three parameters in declaration order. */
  method ChainedDocumentsQuery(index: IndexRef) returns (q: DocumentsQuery)
    ensures fresh(q) && q.index == index
    ensures q.Serialized() == [("offset", Number(1)), ("limit", Number(1)), ("fields", Names(["kind"]))]
  {
    q := new DocumentsQuery(index);
    var same := q.WithLimit(1);
    same := q.WithOffset(1);
    same := q.WithFields(["kind"]);
  }
}
