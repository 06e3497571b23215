/** What the `IndexConfig` derivation accepts and what it generates, stated
    with reference predicates that do not follow the derivation's loops:
    a struct is accepted exactly when its `index_config` attributes are well
    formed, name only known properties, repeat none on a field, give the
    primary key and the distinct attribute to one field each at most, and
    sit on named fields; the generated settings then list each property's
    fields in declaration order. */
module IndexSettingMacroProofs {
  import opened Prelude
  import opened IndexSettingMacro
  import Settings

  // ---------------------------------------------------------------------
  // Reference predicates
  // ---------------------------------------------------------------------

  function Elems(ns: seq<string>): set<string> {
    set x | x in ns
  }

  predicate NoDup(ns: seq<string>) {
    forall i, j :: 0 <= i < j < |ns| ==> ns[i] != ns[j]
  }

  /** A run of attribute names that the validator accepts after the
      struct-wide set `g` and the field's set `l`: every name is known,
      none repeats or is already on the field, and a primary key or distinct
      attribute is not already taken. */
  predicate Admissible(ns: seq<string>, g: set<string>, l: set<string>) {
    NoDup(ns)
    && (forall x :: x in ns ==> x in ValidAttributeNames && x !in l)
    && (PrimaryKey in ns ==> PrimaryKey !in g)
    && (Distinct in ns ==> Distinct !in g)
  }

  /** Inside an `index_config` group only identifiers and lone commas may
      appear. */
  predicate TokenWellFormed(t: Token) {
    match t
    case Ident(_) => true
    case Punct(c, alone) => c == ',' && alone
    case Other => false
  }

  predicate StreamWellFormed(ts: seq<Token>) {
    forall i :: 0 <= i < |ts| ==> TokenWellFormed(ts[i])
  }

  predicate TreesWellFormed(trees: seq<TokenTree>) {
    forall k :: 0 <= k < |trees| && trees[k].Group? ==> StreamWellFormed(trees[k].stream)
  }

  predicate IsIndexConfig(a: Attribute) {
    a.meta == ListMeta(IndexConfigPath)
  }

  /** An attribute parses, and if it is an `index_config` list its groups
      are well formed. */
  predicate AttrWellFormed(a: Attribute) {
    !a.meta.MetaError? && (IsIndexConfig(a) ==> TreesWellFormed(a.tokens))
  }

  predicate AttrsWellFormed(attrs: seq<Attribute>) {
    forall i :: 0 <= i < |attrs| ==> AttrWellFormed(attrs[i])
  }

  /** The identifiers of a token stream, in order. */
  function IdentNames(ts: seq<Token>): seq<string>
    decreases |ts|
  {
    if ts == [] then []
    else (if ts[0].Ident? then [ts[0].name] else []) + IdentNames(ts[1..])
  }

  /** The identifiers of the top-level groups, in order. */
  function TreeNames(trees: seq<TokenTree>): seq<string>
    decreases |trees|
  {
    if trees == [] then []
    else (if trees[0].Group? then IdentNames(trees[0].stream) else []) + TreeNames(trees[1..])
  }

  /** The names one attribute gives a field: those of an `index_config`
      list, and none for any other attribute. */
  function OwnNames(a: Attribute): seq<string> {
    if IsIndexConfig(a) then TreeNames(a.tokens) else []
  }

  /** The names a field's `index_config` attributes give it, in order. */
  function AttrNames(attrs: seq<Attribute>): seq<string>
    decreases |attrs|
  {
    if attrs == [] then [] else OwnNames(attrs[0]) + AttrNames(attrs[1..])
  }

  predicate Carries(f: Field, attribute: string) {
    attribute in AttrNames(f.attrs)
  }

  /** What one field needs on its own. */
  predicate FieldAcceptable(f: Field) {
    AttrsWellFormed(f.attrs)
    && Admissible(AttrNames(f.attrs), {}, {})
    && (AttrNames(f.attrs) != [] ==> f.ident.Some?)
  }

  predicate AtMostOne(fields: seq<Field>, attribute: string) {
    forall i, j :: 0 <= i < j < |fields| && Carries(fields[i], attribute) ==> !Carries(fields[j], attribute)
  }

  predicate NoneCarries(fields: seq<Field>, attribute: string) {
    forall i :: 0 <= i < |fields| ==> !Carries(fields[i], attribute)
  }

  /** The structs the derivation accepts. */
  predicate Acceptable(fields: seq<Field>) {
    (forall i :: 0 <= i < |fields| ==> FieldAcceptable(fields[i]))
    && AtMostOne(fields, PrimaryKey)
    && AtMostOne(fields, Distinct)
  }

  /** The names of the fields carrying `attribute`, in declaration order. */
  function FieldsCarrying(fields: seq<Field>, attribute: string): seq<string>
    decreases |fields|
  {
    if fields == [] then []
    else (if Carries(fields[0], attribute) then [fields[0].ident.UnwrapOr("")] else [])
         + FieldsCarrying(fields[1..], attribute)
  }

  function Mark(ns: seq<string>, attribute: string, name: string): seq<string> {
    if attribute in ns then [name] else []
  }

  // ---------------------------------------------------------------------
  // The validator
  // ---------------------------------------------------------------------

  lemma ElemsAppend(a: seq<string>, b: seq<string>)
    ensures Elems(a + b) == Elems(a) + Elems(b)
  {
  }

  lemma NoDupJoin(a: seq<string>, b: seq<string>)
    requires NoDup(a) && NoDup(b) && (forall x :: x in b ==> x !in a)
    ensures NoDup(a + b)
  {
    forall i, j | 0 <= i < j < |a + b|
      ensures (a + b)[i] != (a + b)[j]
    {
      if i < |a| {
        assert (a + b)[i] == a[i];
        if j >= |a| {
          assert (a + b)[j] == b[j - |a|] && b[j - |a|] in b;
        } else {
          assert (a + b)[j] == a[j];
        }
      } else {
        assert (a + b)[i] == b[i - |a|] && (a + b)[j] == b[j - |a|];
      }
    }
  }

  lemma NoDupSplit(a: seq<string>, b: seq<string>)
    requires NoDup(a + b)
    ensures NoDup(a) && NoDup(b) && (forall x :: x in b ==> x !in a)
  {
    forall i, j | 0 <= i < j < |a|
      ensures a[i] != a[j]
    {
      assert a[i] == (a + b)[i] && a[j] == (a + b)[j];
    }
    forall i, j | 0 <= i < j < |b|
      ensures b[i] != b[j]
    {
      assert b[i] == (a + b)[i + |a|] && b[j] == (a + b)[j + |a|];
    }
    forall x | x in b
      ensures x !in a
    {
      var j :| 0 <= j < |b| && b[j] == x;
      assert (a + b)[j + |a|] == x;
      forall i | 0 <= i < |a|
        ensures a[i] != x
      {
        assert (a + b)[i] == a[i];
      }
    }
  }

  lemma NoDupAppend(a: seq<string>, b: seq<string>)
    ensures NoDup(a + b) <==> NoDup(a) && NoDup(b) && (forall x :: x in b ==> x !in a)
  {
    if NoDup(a) && NoDup(b) && (forall x :: x in b ==> x !in a) {
      NoDupJoin(a, b);
    }
    if NoDup(a + b) {
      NoDupSplit(a, b);
    }
  }

  /** Admissibility of a concatenation: the first part against the sets,
      the second against the sets grown by the first. */
  lemma AdmissibleAppend(a: seq<string>, b: seq<string>, g: set<string>, l: set<string>)
    ensures Admissible(a + b, g, l) <==> Admissible(a, g, l) && Admissible(b, g + Elems(a), l + Elems(a))
  {
    NoDupAppend(a, b);
  }

  /** The validator state after accepting the names `ns`. */
  function After(s: Scan, ns: seq<string>): Scan {
    Scan(s.global + Elems(ns), s.local + Elems(ns), s.names + ns)
  }

  /** Accepting `a` and then `b` is accepting `a + b`, and the names are
      admissible together exactly when each part is, in its own state. */
  lemma AfterAppend(a: seq<string>, b: seq<string>, s: Scan)
    ensures Admissible(a + b, s.global, s.local)
            <==> Admissible(a, s.global, s.local) && Admissible(b, After(s, a).global, After(s, a).local)
    ensures After(After(s, a), b) == After(s, a + b)
  {
    AdmissibleAppend(a, b, s.global, s.local);
    ElemsAppend(a, b);
    assert s.names + a + b == s.names + (a + b);
  }

  /** The names a token contributes: its identifier, if it is one. */
  function TokenNames(t: Token): seq<string> {
    if t.Ident? then [t.name] else []
  }

  /** One token is accepted exactly when it is well formed and its name is
      admissible; accepting it adds that name. */
  lemma ScanTokenMeaning(t: Token, s: Scan)
    ensures ScanToken(t, s).Ok? <==> TokenWellFormed(t) && Admissible(TokenNames(t), s.global, s.local)
    ensures ScanToken(t, s).Ok? ==> ScanToken(t, s).value == After(s, TokenNames(t))
  {
    if t.Ident? {
      assert Elems([t.name]) == {t.name};
    } else {
      assert Elems([]) == {};
    }
  }

  lemma {:induction false} ScanStreamMeaning(ts: seq<Token>, s: Scan)
    ensures ScanStream(ts, s).Ok? <==> StreamWellFormed(ts) && Admissible(IdentNames(ts), s.global, s.local)
    ensures ScanStream(ts, s).Ok? ==> ScanStream(ts, s).value == After(s, IdentNames(ts))
    decreases |ts|
  {
    if ts != [] {
      var t, rest := ts[0], ts[1..];
      assert StreamWellFormed(ts) <==> TokenWellFormed(t) && StreamWellFormed(rest) by {
        assert forall i :: 0 < i < |ts| ==> ts[i] == rest[i - 1];
      }
      assert IdentNames(ts) == TokenNames(t) + IdentNames(rest);
      AfterAppend(TokenNames(t), IdentNames(rest), s);
      ScanTokenMeaning(t, s);
      if ScanToken(t, s).Ok? {
        ScanStreamMeaning(rest, ScanToken(t, s).value);
      }
    } else {
      assert After(s, []) == s;
    }
  }

  lemma TreesWellFormedCons(trees: seq<TokenTree>)
    requires trees != []
    ensures TreesWellFormed(trees)
            <==> (trees[0].Group? ==> StreamWellFormed(trees[0].stream)) && TreesWellFormed(trees[1..])
  {
    assert forall k :: 0 < k < |trees| ==> trees[k] == trees[1..][k - 1];
  }

  lemma {:induction false} ScanTreesMeaning(trees: seq<TokenTree>, s: Scan)
    ensures ScanTrees(trees, s).Ok? <==> TreesWellFormed(trees) && Admissible(TreeNames(trees), s.global, s.local)
    ensures ScanTrees(trees, s).Ok? ==> ScanTrees(trees, s).value == After(s, TreeNames(trees))
    decreases |trees|
  {
    if trees != [] {
      var rest := trees[1..];
      TreesWellFormedCons(trees);
      match trees[0]
      case Leaf =>
        assert TreeNames(trees) == [] + TreeNames(rest) == TreeNames(rest);
        ScanTreesMeaning(rest, s);
      case Group(stream) =>
        var a, b := IdentNames(stream), TreeNames(rest);
        assert TreeNames(trees) == a + b;
        AfterAppend(a, b, s);
        ScanStreamMeaning(stream, s);
        var r := ScanStream(stream, s);
        if r.Ok? {
          ScanTreesMeaning(rest, r.value);
        }
    } else {
      assert After(s, []) == s;
    }
  }

  /** One attribute: it passes exactly when it is well formed and its own
      names are admissible, and the state then gains those names. */
  lemma ScanAttrMeaning(a: Attribute, s: Scan)
    ensures ScanAttr(a, s).Ok? <==> AttrWellFormed(a) && Admissible(OwnNames(a), s.global, s.local)
    ensures ScanAttr(a, s).Ok? ==> ScanAttr(a, s).value == After(s, OwnNames(a))
  {
    ScanTreesMeaning(a.tokens, s);
    if !IsIndexConfig(a) {
      assert After(s, []) == s;
    }
  }

  lemma AttrsWellFormedCons(attrs: seq<Attribute>)
    requires attrs != []
    ensures AttrsWellFormed(attrs) <==> AttrWellFormed(attrs[0]) && AttrsWellFormed(attrs[1..])
  {
    assert forall i :: 0 < i < |attrs| ==> attrs[i] == attrs[1..][i - 1];
  }

  lemma {:induction false} ScanAttrsMeaning(attrs: seq<Attribute>, s: Scan)
    ensures ScanAttrs(attrs, s).Ok? <==> AttrsWellFormed(attrs) && Admissible(AttrNames(attrs), s.global, s.local)
    ensures ScanAttrs(attrs, s).Ok? ==> ScanAttrs(attrs, s).value == After(s, AttrNames(attrs))
    decreases |attrs|
  {
    if attrs != [] {
      var rest := attrs[1..];
      AttrsWellFormedCons(attrs);
      var a, b := OwnNames(attrs[0]), AttrNames(rest);
      assert AttrNames(attrs) == a + b;
      AfterAppend(a, b, s);
      ScanAttrMeaning(attrs[0], s);
      var r := ScanAttr(attrs[0], s);
      if r.Ok? {
        ScanAttrsMeaning(rest, r.value);
      }
    } else {
      assert After(s, []) == s;
    }
  }

  /** `extract_all_attr_values` succeeds exactly when the field's attributes
      are well formed and its names admissible after the struct-wide set;
      it then returns the names in order and adds them to the set. */
  lemma ExtractAllMeaning(attrs: seq<Attribute>, seen: set<string>)
    ensures ExtractAll(attrs, seen).Ok? <==> AttrsWellFormed(attrs) && Admissible(AttrNames(attrs), seen, {})
    ensures ExtractAll(attrs, seen).Ok? ==>
              ExtractAll(attrs, seen).value == (AttrNames(attrs), seen + Elems(AttrNames(attrs)))
  {
    ScanAttrsMeaning(attrs, Scan(seen, {}, []));
    assert [] + AttrNames(attrs) == AttrNames(attrs);
  }

  // ---------------------------------------------------------------------
  // The field loop
  // ---------------------------------------------------------------------

  /** The last of `xs`, or `d` when there is none: what a key variable holds
      after assignments in the order of `xs`. */
  function LastOr(xs: seq<string>, d: string): string {
    if xs == [] then d else xs[|xs| - 1]
  }

  lemma LastOrAppend(a: seq<string>, b: seq<string>, d: string)
    ensures LastOr(a + b, d) == LastOr(b, LastOr(a, d))
  {
  }

  /** The match over one field's names unwraps the identifier on the first
      known name, and touches no set. */
  lemma {:induction false} ClassifyAccepts(ident: Option<string>, ns: seq<string>, acc: Acc)
    requires forall x :: x in ns ==> x in ValidAttributeNames
    ensures Classify(ident, ns, acc).Ok? <==> ns == [] || ident.Some?
    ensures Classify(ident, ns, acc).Ok? ==> Classify(ident, ns, acc).value.seen == acc.seen
    decreases |ns|
  {
    if ns != [] && ident.Some? {
      assert forall y :: y in ns[1..] ==> y in ns;
      ClassifyAccepts(ident, ns[1..], Record(acc, ns[0], ident.value));
    }
  }

  lemma MarkCons(x: string, rest: seq<string>, attribute: string, name: string)
    requires x !in rest
    ensures Mark([x] + rest, attribute, name) == if x == attribute then [name] else Mark(rest, attribute, name)
  {
    assert forall y :: y in [x] + rest <==> y == x || y in rest;
  }

  /** Without repetition each list gains the field at most once, and each
      key is set to the field when the field carries it. */
  lemma {:induction false} ClassifyResult(name: string, ns: seq<string>, acc: Acc)
    requires NoDup(ns)
    ensures Classify(Some(name), ns, acc).Ok?
    ensures var r := Classify(Some(name), ns, acc).value;
            && r.displayed == acc.displayed + Mark(ns, "displayed", name)
            && r.searchable == acc.searchable + Mark(ns, "searchable", name)
            && r.filterable == acc.filterable + Mark(ns, "filterable", name)
            && r.sortable == acc.sortable + Mark(ns, "sortable", name)
            && r.primaryKey == (if PrimaryKey in ns then name else acc.primaryKey)
            && r.distinctKey == (if Distinct in ns then name else acc.distinctKey)
    decreases |ns|
  {
    if ns != [] {
      var x, rest := ns[0], ns[1..];
      assert ns == [x] + rest;
      NoDupSplit([x], rest);
      ClassifyResult(name, rest, Record(acc, x, name));
      MarkCons(x, rest, "displayed", name);
      MarkCons(x, rest, "searchable", name);
      MarkCons(x, rest, "filterable", name);
      MarkCons(x, rest, "sortable", name);
      MarkCons(x, rest, PrimaryKey, name);
      MarkCons(x, rest, Distinct, name);
      assert PrimaryKey in ns <==> x == PrimaryKey || PrimaryKey in rest;
      assert Distinct in ns <==> x == Distinct || Distinct in rest;
    }
  }

  lemma FieldsCons(fields: seq<Field>, attribute: string)
    requires fields != []
    ensures AtMostOne(fields, attribute)
            <==> AtMostOne(fields[1..], attribute)
                 && (Carries(fields[0], attribute) ==> NoneCarries(fields[1..], attribute))
    ensures NoneCarries(fields, attribute)
            <==> !Carries(fields[0], attribute) && NoneCarries(fields[1..], attribute)
    ensures (forall i :: 0 <= i < |fields| ==> FieldAcceptable(fields[i]))
            <==> FieldAcceptable(fields[0]) && (forall i :: 0 <= i < |fields| - 1 ==> FieldAcceptable(fields[1..][i]))
    ensures FieldsCarrying(fields, attribute)
            == (if Carries(fields[0], attribute) then [fields[0].ident.UnwrapOr("")] else [])
               + FieldsCarrying(fields[1..], attribute)
  {
    var rest := fields[1..];
    assert forall i :: 0 < i < |fields| ==> fields[i] == rest[i - 1];
    if AtMostOne(rest, attribute) && (Carries(fields[0], attribute) ==> NoneCarries(rest, attribute)) {
      forall i, j | 0 <= i < j < |fields| && Carries(fields[i], attribute)
        ensures !Carries(fields[j], attribute)
      {
        assert fields[j] == rest[j - 1];
        if i > 0 {
          assert fields[i] == rest[i - 1];
        }
      }
    }
    if AtMostOne(fields, attribute) {
      forall i, j | 0 <= i < j < |rest| && Carries(rest[i], attribute)
        ensures !Carries(rest[j], attribute)
      {
        assert rest[i] == fields[i + 1] && rest[j] == fields[j + 1];
      }
      if Carries(fields[0], attribute) {
        forall j | 0 <= j < |rest|
          ensures !Carries(rest[j], attribute)
        {
          assert rest[j] == fields[j + 1];
        }
      }
    }
  }

  /** The field loop succeeds exactly on acceptable fields whose primary key
      and distinct attribute, if any, are not taken already. */
  /** One iteration of the field loop succeeds exactly when the field is
      acceptable on its own and takes no primary key or distinct attribute
      already taken; afterwards those two are taken when they were before or
      the field carries them. */
  lemma FieldAccepts(f: Field, acc: Acc)
    ensures var e := ExtractAll(f.attrs, acc.seen);
            (e.Ok? && Classify(f.ident, e.value.0, acc.(seen := e.value.1)).Ok?)
            <==> FieldAcceptable(f)
                 && (Carries(f, PrimaryKey) ==> PrimaryKey !in acc.seen)
                 && (Carries(f, Distinct) ==> Distinct !in acc.seen)
    ensures var e := ExtractAll(f.attrs, acc.seen);
            e.Ok? && Classify(f.ident, e.value.0, acc.(seen := e.value.1)).Ok? ==>
              var seen' := Classify(f.ident, e.value.0, acc.(seen := e.value.1)).value.seen;
              (PrimaryKey in seen' <==> PrimaryKey in acc.seen || Carries(f, PrimaryKey))
              && (Distinct in seen' <==> Distinct in acc.seen || Carries(f, Distinct))
  {
    var ns := AttrNames(f.attrs);
    ExtractAllMeaning(f.attrs, acc.seen);
    var e := ExtractAll(f.attrs, acc.seen);
    if e.Ok? {
      ClassifyAccepts(f.ident, ns, acc.(seen := e.value.1));
    }
  }

  lemma {:induction false} DeriveFieldsAccepts(fields: seq<Field>, acc: Acc)
    ensures DeriveFields(fields, acc).Ok?
            <==> Acceptable(fields)
                 && (PrimaryKey in acc.seen ==> NoneCarries(fields, PrimaryKey))
                 && (Distinct in acc.seen ==> NoneCarries(fields, Distinct))
    decreases |fields|
  {
    if fields != [] {
      var f, rest := fields[0], fields[1..];
      FieldsCons(fields, PrimaryKey);
      FieldsCons(fields, Distinct);
      FieldAccepts(f, acc);
      var e := ExtractAll(f.attrs, acc.seen);
      if e.Ok? {
        var c := Classify(f.ident, e.value.0, acc.(seen := e.value.1));
        if c.Ok? {
          DeriveFieldsAccepts(rest, c.value);
        }
      }
    }
  }

  lemma CarryingCons(fields: seq<Field>, attribute: string)
    requires fields != []
    ensures FieldsCarrying(fields, attribute)
            == Mark(AttrNames(fields[0].attrs), attribute, fields[0].ident.UnwrapOr(""))
               + FieldsCarrying(fields[1..], attribute)
  {
  }

  /** One successful step of the field loop: the accumulators after the
      first field, in terms of the field's names. */
  lemma DeriveFieldsStep(fields: seq<Field>, acc: Acc) returns (next: Acc)
    requires fields != [] && DeriveFields(fields, acc).Ok?
    ensures DeriveFields(fields[1..], next) == DeriveFields(fields, acc)
    ensures var ns, n := AttrNames(fields[0].attrs), fields[0].ident.UnwrapOr("");
            && next.displayed == acc.displayed + Mark(ns, "displayed", n)
            && next.searchable == acc.searchable + Mark(ns, "searchable", n)
            && next.filterable == acc.filterable + Mark(ns, "filterable", n)
            && next.sortable == acc.sortable + Mark(ns, "sortable", n)
            && next.primaryKey == LastOr(Mark(ns, PrimaryKey, n), acc.primaryKey)
            && next.distinctKey == LastOr(Mark(ns, Distinct, n), acc.distinctKey)
  {
    var f := fields[0];
    var ns := AttrNames(f.attrs);
    ExtractAllMeaning(f.attrs, acc.seen);
    var e := ExtractAll(f.attrs, acc.seen);
    var acc1 := acc.(seen := e.value.1);
    ClassifyAccepts(f.ident, ns, acc1);
    next := Classify(f.ident, ns, acc1).value;
    if ns != [] {
      ClassifyResult(f.ident.value, ns, acc1);
    } else {
      assert next == acc1;
    }
  }

  /** The attribute that puts a field on a list. */
  function AttributeOf(l: ListSetting): string {
    match l
    case DisplayedList => "displayed"
    case SearchableList => "searchable"
    case FilterableList => "filterable"
    case SortableList => "sortable"
  }

  /** One of the four attribute lists of the accumulators. */
  function ListOf(acc: Acc, l: ListSetting): seq<string> {
    match l
    case DisplayedList => acc.displayed
    case SearchableList => acc.searchable
    case FilterableList => acc.filterable
    case SortableList => acc.sortable
  }

  /** The list after one field, then after the rest, is the list after all
      of them. */
  lemma ListCompose(before: seq<string>, mid: seq<string>, after: seq<string>,
                    own: seq<string>, restCarrying: seq<string>, carrying: seq<string>)
    requires mid == before + own && after == mid + restCarrying && carrying == own + restCarrying
    ensures after == before + carrying
  {
    assert before + own + restCarrying == before + (own + restCarrying);
  }

  /** On success, one list gains the fields carrying its attribute, in
      declaration order. */
  lemma {:induction false} DeriveFieldsList(fields: seq<Field>, acc: Acc, l: ListSetting)
    requires DeriveFields(fields, acc).Ok?
    ensures ListOf(DeriveFields(fields, acc).value, l) == ListOf(acc, l) + FieldsCarrying(fields, AttributeOf(l))
    decreases |fields|
  {
    if fields != [] {
      var ns, n, a := AttrNames(fields[0].attrs), fields[0].ident.UnwrapOr(""), AttributeOf(l);
      var rest := fields[1..];
      var next := DeriveFieldsStep(fields, acc);
      var r := DeriveFields(rest, next).value;
      assert ListOf(next, l) == ListOf(acc, l) + Mark(ns, a, n) by {
        match l
        case DisplayedList =>
        case SearchableList =>
        case FilterableList =>
        case SortableList =>
      }
      DeriveFieldsList(rest, next, l);
      CarryingCons(fields, a);
      ListCompose(ListOf(acc, l), ListOf(next, l), ListOf(r, l), Mark(ns, a, n),
                  FieldsCarrying(rest, a), FieldsCarrying(fields, a));
    }
  }

  /** On success, each list gains the fields carrying its property, in
      declaration order. */
  lemma DeriveFieldsLists(fields: seq<Field>, acc: Acc)
    requires DeriveFields(fields, acc).Ok?
    ensures var r := DeriveFields(fields, acc).value;
            && r.displayed == acc.displayed + FieldsCarrying(fields, "displayed")
            && r.searchable == acc.searchable + FieldsCarrying(fields, "searchable")
            && r.filterable == acc.filterable + FieldsCarrying(fields, "filterable")
            && r.sortable == acc.sortable + FieldsCarrying(fields, "sortable")
  {
    DeriveFieldsList(fields, acc, DisplayedList);
    DeriveFieldsList(fields, acc, SearchableList);
    DeriveFieldsList(fields, acc, FilterableList);
    DeriveFieldsList(fields, acc, SortableList);
  }

  /** On success, each key ends as the last field carrying it. */
  lemma {:induction false} DeriveFieldsKeys(fields: seq<Field>, acc: Acc)
    requires DeriveFields(fields, acc).Ok?
    ensures var r := DeriveFields(fields, acc).value;
            && r.primaryKey == LastOr(FieldsCarrying(fields, PrimaryKey), acc.primaryKey)
            && r.distinctKey == LastOr(FieldsCarrying(fields, Distinct), acc.distinctKey)
    decreases |fields|
  {
    if fields != [] {
      var ns, n := AttrNames(fields[0].attrs), fields[0].ident.UnwrapOr("");
      var next := DeriveFieldsStep(fields, acc);
      DeriveFieldsKeys(fields[1..], next);
      CarryingCons(fields, PrimaryKey);
      CarryingCons(fields, Distinct);
      LastOrAppend(Mark(ns, PrimaryKey, n), FieldsCarrying(fields[1..], PrimaryKey), acc.primaryKey);
      LastOrAppend(Mark(ns, Distinct, n), FieldsCarrying(fields[1..], Distinct), acc.distinctKey);
    }
  }

  // ---------------------------------------------------------------------
  // What the derivation accepts and generates
  // ---------------------------------------------------------------------

  /** The derivation accepts exactly the acceptable structs. */
  lemma IndexConfigAcceptsExactly(fields: seq<Field>)
    ensures IndexConfigOf(fields).Ok? <==> Acceptable(fields)
  {
    DeriveFieldsAccepts(fields, InitialAcc);
  }

  lemma NoneCarriesNothing(fields: seq<Field>, attribute: string)
    requires NoneCarries(fields, attribute)
    ensures FieldsCarrying(fields, attribute) == []
  {
    if fields != [] {
      FieldsCons(fields, attribute);
      NoneCarriesNothing(fields[1..], attribute);
    }
  }

  /** A property given to one field at most names one field at most. */
  lemma {:induction false} AtMostOneCarrying(fields: seq<Field>, attribute: string)
    requires AtMostOne(fields, attribute)
    ensures |FieldsCarrying(fields, attribute)| <= 1
    decreases |fields|
  {
    if fields != [] {
      FieldsCons(fields, attribute);
      if Carries(fields[0], attribute) {
        NoneCarriesNothing(fields[1..], attribute);
      } else {
        AtMostOneCarrying(fields[1..], attribute);
      }
    }
  }

  /** The names collected for a property are the identifiers of acceptable
      fields, hence never empty. */
  lemma {:induction false} CarryingNamed(fields: seq<Field>, attribute: string)
    requires forall i :: 0 <= i < |fields| ==> FieldAcceptable(fields[i]) && fields[i].ident != Some("")
    ensures forall k :: 0 <= k < |FieldsCarrying(fields, attribute)| ==> FieldsCarrying(fields, attribute)[k] != ""
    decreases |fields|
  {
    if fields != [] {
      var rest := fields[1..];
      var head := if Carries(fields[0], attribute) then [fields[0].ident.UnwrapOr("")] else [];
      assert forall i :: 0 <= i < |rest| ==> rest[i] == fields[i + 1];
      CarryingNamed(rest, attribute);
      assert forall k :: 0 <= k < |head| ==> head[k] != "";
      assert FieldsCarrying(fields, attribute) == head + FieldsCarrying(rest, attribute);
    }
  }

  /** The generated builder chain, applied to fresh settings: the four
      lists always, the distinct attribute when one was recorded, nothing
      else. */
  lemma ApplyAllCons(s: Settings.Settings, u: Settings.BuilderCall, us: seq<Settings.BuilderCall>, s': Settings.Settings)
    requires Settings.Apply(s, u) == s'
    ensures Settings.ApplyAll(s, [u] + us) == Settings.ApplyAll(s', us)
  {
    assert ([u] + us)[1..] == us;
  }

  /** The four list builders on fresh settings. */
  lemma ListChain(acc: Acc, tail: seq<Settings.BuilderCall>)
    ensures Settings.ApplyAll(Settings.New(),
                              [Settings.SetDisplayedAttributes(acc.displayed), Settings.SetSortableAttributes(acc.sortable),
                               Settings.SetFilterableAttributes(acc.filterable), Settings.SetSearchableAttributes(acc.searchable)]
                              + tail)
            == Settings.ApplyAll(Settings.Settings(None, None, None, Some(acc.filterable), Some(acc.sortable), None,
                                                   Some(acc.searchable), Some(acc.displayed), None, None), tail)
  {
    var a, b := Settings.SetDisplayedAttributes(acc.displayed), Settings.SetSortableAttributes(acc.sortable);
    var c, d := Settings.SetFilterableAttributes(acc.filterable), Settings.SetSearchableAttributes(acc.searchable);
    var s1 := Settings.Settings(None, None, None, None, None, None, None, Some(acc.displayed), None, None);
    var s2 := s1.(sortableAttributes := Some(acc.sortable));
    var s3 := s2.(filterableAttributes := Some(acc.filterable));
    var s4 := s3.(searchableAttributes := Some(acc.searchable));
    Settings.ApplyAllAppend(Settings.New(), [a, b, c, d], tail);
    assert Settings.ApplyAll(s3, [d]) == s4 by {
      assert [d][1..] == [];
    }
    assert Settings.ApplyAll(s2, [c, d]) == s4 by {
      assert [c, d][1..] == [d];
    }
    assert Settings.ApplyAll(s1, [b, c, d]) == s4 by {
      assert [b, c, d][1..] == [c, d];
    }
    assert Settings.ApplyAll(Settings.New(), [a, b, c, d]) == s4 by {
      assert [a, b, c, d][1..] == [b, c, d];
    }
  }

  lemma FinishedSettings(acc: Acc)
    ensures GenerateSettings(Finish(acc))
            == Settings.Settings(None, None, None, Some(acc.filterable), Some(acc.sortable),
                                 if acc.distinctKey == "" then None else Some(acc.distinctKey),
                                 Some(acc.searchable), Some(acc.displayed), None, None)
  {
    var tail := if acc.distinctKey == "" then [] else [Settings.SetDistinctAttribute(acc.distinctKey)];
    assert Finish(acc).settingsCalls
        == [Settings.SetDisplayedAttributes(acc.displayed), Settings.SetSortableAttributes(acc.sortable),
            Settings.SetFilterableAttributes(acc.filterable), Settings.SetSearchableAttributes(acc.searchable)]
           + tail;
    ListChain(acc, tail);
    if tail != [] {
      var s4 := Settings.Settings(None, None, None, Some(acc.filterable), Some(acc.sortable), None,
                                  Some(acc.searchable), Some(acc.displayed), None, None);
      ApplyAllCons(s4, tail[0], [], s4.(distinctAttribute := Some(acc.distinctKey)));
      assert tail == [tail[0]] + [];
    }
  }

  /** A key variable holds the empty string exactly when no field carried
      the key, and otherwise the one field that did. */
  lemma KeyOfFields(fields: seq<Field>, attribute: string, key: string)
    requires Acceptable(fields) && AtMostOne(fields, attribute)
    requires forall i :: 0 <= i < |fields| ==> fields[i].ident != Some("")
    requires key == LastOr(FieldsCarrying(fields, attribute), "")
    ensures |FieldsCarrying(fields, attribute)| <= 1
    ensures key == "" <==> FieldsCarrying(fields, attribute) == []
    ensures key != "" ==> key == FieldsCarrying(fields, attribute)[0]
  {
    AtMostOneCarrying(fields, attribute);
    CarryingNamed(fields, attribute);
  }

  /** What an accepted struct generates: `generate_settings` sets the four
      lists to the fields carrying each property in declaration order (an
      empty list when none does), sets the distinct attribute exactly when a
      field carries it, and leaves every other setting undefined; the index
      is created with the primary key of the one field carrying it, if any. */
  lemma GeneratedConfig(fields: seq<Field>)
    requires IndexConfigOf(fields).Ok?
    requires forall i :: 0 <= i < |fields| ==> fields[i].ident != Some("")
    ensures var config := IndexConfigOf(fields).value;
            var pk, d := FieldsCarrying(fields, PrimaryKey), FieldsCarrying(fields, Distinct);
            && |pk| <= 1 && |d| <= 1
            && config.primaryKey == (if pk == [] then None else Some(pk[0]))
            && GenerateSettings(config)
               == Settings.Settings(None, None, None,
                                    Some(FieldsCarrying(fields, "filterable")),
                                    Some(FieldsCarrying(fields, "sortable")),
                                    if d == [] then None else Some(d[0]),
                                    Some(FieldsCarrying(fields, "searchable")),
                                    Some(FieldsCarrying(fields, "displayed")),
                                    None, None)
  {
    IndexConfigAcceptsExactly(fields);
    var acc := DeriveFields(fields, InitialAcc).value;
    DeriveFieldsLists(fields, InitialAcc);
    DeriveFieldsKeys(fields, InitialAcc);
    KeyOfFields(fields, PrimaryKey, acc.primaryKey);
    KeyOfFields(fields, Distinct, acc.distinctKey);
    FinishedSettings(acc);
    assert [] + FieldsCarrying(fields, "filterable") == FieldsCarrying(fields, "filterable");
    assert [] + FieldsCarrying(fields, "sortable") == FieldsCarrying(fields, "sortable");
    assert [] + FieldsCarrying(fields, "searchable") == FieldsCarrying(fields, "searchable");
    assert [] + FieldsCarrying(fields, "displayed") == FieldsCarrying(fields, "displayed");
  }

  // ---------------------------------------------------------------------
  // The structs of the library's own tests
  // ---------------------------------------------------------------------

  /** The group `(p0, p1, ...)`: identifiers separated by lone commas. */
  function CommaSeparated(props: seq<string>): seq<Token>
    decreases |props|
  {
    if props == [] then []
    else if |props| == 1 then [Ident(props[0])]
    else [Ident(props[0]), Punct(',', true)] + CommaSeparated(props[1..])
  }

  /** A named field with the one attribute `#[index_config(props)]`. */
  function ConfigField(name: string, props: seq<string>): Field {
    Field(Some(name), [Attribute(ListMeta(IndexConfigPath), [Group(CommaSeparated(props))])])
  }

  lemma {:induction false} CommaSeparatedNames(props: seq<string>)
    ensures IdentNames(CommaSeparated(props)) == props
    ensures StreamWellFormed(CommaSeparated(props))
    decreases |props|
  {
    if |props| > 1 {
      var rest := CommaSeparated(props[1..]);
      CommaSeparatedNames(props[1..]);
      var ts := [Ident(props[0]), Punct(',', true)] + rest;
      assert ts[1..][1..] == rest;
      assert forall i :: 2 <= i < |ts| ==> ts[i] == rest[i - 2];
    }
  }

  lemma ConfigFieldNames(name: string, props: seq<string>)
    ensures AttrNames(ConfigField(name, props).attrs) == props
    ensures AttrsWellFormed(ConfigField(name, props).attrs)
  {
    CommaSeparatedNames(props);
    var a := ConfigField(name, props).attrs[0];
    assert TreeNames(a.tokens) == props;
    assert TreesWellFormed(a.tokens);
  }

  /** Fields declared as (identifier, properties) pairs, each with one
      `index_config` attribute. */
  function ConfigFields(decls: seq<(string, seq<string>)>): seq<Field> {
    seq(|decls|, i requires 0 <= i < |decls| => ConfigField(decls[i].0, decls[i].1))
  }

  /** The declared identifiers whose properties include `attribute`. */
  function Declaring(decls: seq<(string, seq<string>)>, attribute: string): seq<string>
    decreases |decls|
  {
    if decls == [] then []
    else (if attribute in decls[0].1 then [decls[0].0] else []) + Declaring(decls[1..], attribute)
  }

  lemma {:induction false} ConfigFieldsCarrying(decls: seq<(string, seq<string>)>, attribute: string)
    ensures FieldsCarrying(ConfigFields(decls), attribute) == Declaring(decls, attribute)
    decreases |decls|
  {
    if decls != [] {
      var fs := ConfigFields(decls);
      assert fs[1..] == ConfigFields(decls[1..]);
      ConfigFieldNames(decls[0].0, decls[0].1);
      CarryingCons(fs, attribute);
      ConfigFieldsCarrying(decls[1..], attribute);
    }
  }

  lemma ConfigFieldsAcceptable(decls: seq<(string, seq<string>)>)
    requires forall k :: 0 <= k < |decls| ==> Admissible(decls[k].1, {}, {})
    ensures forall i :: 0 <= i < |decls| ==> FieldAcceptable(ConfigFields(decls)[i])
  {
    forall i | 0 <= i < |decls|
      ensures FieldAcceptable(ConfigFields(decls)[i])
    {
      ConfigFieldNames(decls[i].0, decls[i].1);
    }
  }

  lemma NothingCarriedNone(fields: seq<Field>, attribute: string)
    requires FieldsCarrying(fields, attribute) == []
    ensures NoneCarries(fields, attribute)
  {
    if fields != [] {
      FieldsCons(fields, attribute);
      NothingCarriedNone(fields[1..], attribute);
    }
  }

  /** The converse of `AtMostOneCarrying`. */
  lemma {:induction false} CarryingAtMostOne(fields: seq<Field>, attribute: string)
    requires |FieldsCarrying(fields, attribute)| <= 1
    ensures AtMostOne(fields, attribute)
    decreases |fields|
  {
    if fields != [] {
      FieldsCons(fields, attribute);
      if Carries(fields[0], attribute) {
        NothingCarriedNone(fields[1..], attribute);
      } else {
        CarryingAtMostOne(fields[1..], attribute);
      }
    }
  }

  const MovieClipsDecls: seq<(string, seq<string>)> := [
    ("movie_id", ["primary_key"]),
    ("owner", ["distinct"]),
    ("title", ["displayed", "searchable"]),
    ("description", ["displayed"]),
    ("release_date", ["filterable", "sortable", "displayed"]),
    ("genres", ["filterable", "displayed"])
  ]

  const VideoClips: seq<Field> := [Field(Some("video_id"), [])]

  lemma MovieClipsAdmissible()
    ensures forall k :: 0 <= k < |MovieClipsDecls| ==> MovieClipsDecls[k].0 != "" && Admissible(MovieClipsDecls[k].1, {}, {})
  {
    var decls := MovieClipsDecls;
    forall k | 0 <= k < |decls|
      ensures decls[k].0 != "" && Admissible(decls[k].1, {}, {})
    {
    }
  }

  // `Declaring` over the `MovieClips` declarations, per attribute and one
  // suffix at a time.

  lemma MovieClipsDeclaringPrimaryKey()
    ensures Declaring(MovieClipsDecls, PrimaryKey) == ["movie_id"]
  {
    var d := MovieClipsDecls;
    assert Declaring(d[5..], PrimaryKey) == [];
    assert d[4..][0] == d[4] && d[4..][1..] == d[5..];
    assert Declaring(d[4..], PrimaryKey) == [];
    assert d[3..][0] == d[3] && d[3..][1..] == d[4..];
    assert Declaring(d[3..], PrimaryKey) == [];
    assert d[2..][0] == d[2] && d[2..][1..] == d[3..];
    assert Declaring(d[2..], PrimaryKey) == [];
    assert d[1..][0] == d[1] && d[1..][1..] == d[2..];
    assert Declaring(d[1..], PrimaryKey) == [];
    assert d[0..][0] == d[0] && d[0..][1..] == d[1..];
    assert d[0..] == d;
    assert Declaring(d[0..], PrimaryKey) == ["movie_id"];
  }

  lemma MovieClipsDeclaringDistinct()
    ensures Declaring(MovieClipsDecls, Distinct) == ["owner"]
  {
    var d := MovieClipsDecls;
    assert Declaring(d[5..], Distinct) == [];
    assert d[4..][0] == d[4] && d[4..][1..] == d[5..];
    assert Declaring(d[4..], Distinct) == [];
    assert d[3..][0] == d[3] && d[3..][1..] == d[4..];
    assert Declaring(d[3..], Distinct) == [];
    assert d[2..][0] == d[2] && d[2..][1..] == d[3..];
    assert Declaring(d[2..], Distinct) == [];
    assert d[1..][0] == d[1] && d[1..][1..] == d[2..];
    assert Declaring(d[1..], Distinct) == ["owner"];
    assert d[0..][0] == d[0] && d[0..][1..] == d[1..];
    assert d[0..] == d;
    assert Declaring(d[0..], Distinct) == ["owner"];
  }

  lemma MovieClipsDeclaringDisplayed()
    ensures Declaring(MovieClipsDecls, "displayed") == ["title", "description", "release_date", "genres"]
  {
    var d := MovieClipsDecls;
    assert Declaring(d[5..], "displayed") == ["genres"];
    assert d[4..][0] == d[4] && d[4..][1..] == d[5..];
    assert Declaring(d[4..], "displayed") == ["release_date", "genres"];
    assert d[3..][0] == d[3] && d[3..][1..] == d[4..];
    assert Declaring(d[3..], "displayed") == ["description", "release_date", "genres"];
    assert d[2..][0] == d[2] && d[2..][1..] == d[3..];
    assert Declaring(d[2..], "displayed") == ["title", "description", "release_date", "genres"];
    assert d[1..][0] == d[1] && d[1..][1..] == d[2..];
    assert Declaring(d[1..], "displayed") == ["title", "description", "release_date", "genres"];
    assert d[0..][0] == d[0] && d[0..][1..] == d[1..];
    assert d[0..] == d;
    assert Declaring(d[0..], "displayed") == ["title", "description", "release_date", "genres"];
  }

  lemma MovieClipsDeclaringSearchable()
    ensures Declaring(MovieClipsDecls, "searchable") == ["title"]
  {
    var d := MovieClipsDecls;
    assert Declaring(d[5..], "searchable") == [];
    assert d[4..][0] == d[4] && d[4..][1..] == d[5..];
    assert Declaring(d[4..], "searchable") == [];
    assert d[3..][0] == d[3] && d[3..][1..] == d[4..];
    assert Declaring(d[3..], "searchable") == [];
    assert d[2..][0] == d[2] && d[2..][1..] == d[3..];
    assert Declaring(d[2..], "searchable") == ["title"];
    assert d[1..][0] == d[1] && d[1..][1..] == d[2..];
    assert Declaring(d[1..], "searchable") == ["title"];
    assert d[0..][0] == d[0] && d[0..][1..] == d[1..];
    assert d[0..] == d;
    assert Declaring(d[0..], "searchable") == ["title"];
  }

  lemma MovieClipsDeclaringFilterable()
    ensures Declaring(MovieClipsDecls, "filterable") == ["release_date", "genres"]
  {
    var d := MovieClipsDecls;
    assert Declaring(d[5..], "filterable") == ["genres"];
    assert d[4..][0] == d[4] && d[4..][1..] == d[5..];
    assert Declaring(d[4..], "filterable") == ["release_date", "genres"];
    assert d[3..][0] == d[3] && d[3..][1..] == d[4..];
    assert Declaring(d[3..], "filterable") == ["release_date", "genres"];
    assert d[2..][0] == d[2] && d[2..][1..] == d[3..];
    assert Declaring(d[2..], "filterable") == ["release_date", "genres"];
    assert d[1..][0] == d[1] && d[1..][1..] == d[2..];
    assert Declaring(d[1..], "filterable") == ["release_date", "genres"];
    assert d[0..][0] == d[0] && d[0..][1..] == d[1..];
    assert d[0..] == d;
    assert Declaring(d[0..], "filterable") == ["release_date", "genres"];
  }

  lemma MovieClipsDeclaringSortable()
    ensures Declaring(MovieClipsDecls, "sortable") == ["release_date"]
  {
    var d := MovieClipsDecls;
    assert Declaring(d[5..], "sortable") == [];
    assert d[4..][0] == d[4] && d[4..][1..] == d[5..];
    assert Declaring(d[4..], "sortable") == ["release_date"];
    assert d[3..][0] == d[3] && d[3..][1..] == d[4..];
    assert Declaring(d[3..], "sortable") == ["release_date"];
    assert d[2..][0] == d[2] && d[2..][1..] == d[3..];
    assert Declaring(d[2..], "sortable") == ["release_date"];
    assert d[1..][0] == d[1] && d[1..][1..] == d[2..];
    assert Declaring(d[1..], "sortable") == ["release_date"];
    assert d[0..][0] == d[0] && d[0..][1..] == d[1..];
    assert d[0..] == d;
    assert Declaring(d[0..], "sortable") == ["release_date"];
  }

  lemma MovieClipsDeclaring()
    ensures Declaring(MovieClipsDecls, PrimaryKey) == ["movie_id"]
    ensures Declaring(MovieClipsDecls, Distinct) == ["owner"]
    ensures Declaring(MovieClipsDecls, "displayed") == ["title", "description", "release_date", "genres"]
    ensures Declaring(MovieClipsDecls, "searchable") == ["title"]
    ensures Declaring(MovieClipsDecls, "filterable") == ["release_date", "genres"]
    ensures Declaring(MovieClipsDecls, "sortable") == ["release_date"]
  {
    MovieClipsDeclaringPrimaryKey();
    MovieClipsDeclaringDistinct();
    MovieClipsDeclaringDisplayed();
    MovieClipsDeclaringSearchable();
    MovieClipsDeclaringFilterable();
    MovieClipsDeclaringSortable();
  }

  /** A struct whose fields each carry one `index_config(...)` attribute
      with admissible properties, and which gives the primary key and the
      distinct attribute to one field each at most, generates the lists of
      the declared fields per property. */
  lemma DeclaredConfig(decls: seq<(string, seq<string>)>)
    requires forall k :: 0 <= k < |decls| ==> decls[k].0 != "" && Admissible(decls[k].1, {}, {})
    requires |Declaring(decls, PrimaryKey)| <= 1 && |Declaring(decls, Distinct)| <= 1
    ensures IndexConfigOf(ConfigFields(decls)).Ok?
    ensures var pk, d := Declaring(decls, PrimaryKey), Declaring(decls, Distinct);
            && IndexConfigOf(ConfigFields(decls)).value.primaryKey == (if pk == [] then None else Some(pk[0]))
            && GenerateSettings(IndexConfigOf(ConfigFields(decls)).value)
               == Settings.Settings(None, None, None,
                                    Some(Declaring(decls, "filterable")), Some(Declaring(decls, "sortable")),
                                    if d == [] then None else Some(d[0]),
                                    Some(Declaring(decls, "searchable")), Some(Declaring(decls, "displayed")),
                                    None, None)
  {
    var fs := ConfigFields(decls);
    ConfigFieldsAcceptable(decls);
    ConfigFieldsCarrying(decls, PrimaryKey);
    ConfigFieldsCarrying(decls, Distinct);
    ConfigFieldsCarrying(decls, "displayed");
    ConfigFieldsCarrying(decls, "searchable");
    ConfigFieldsCarrying(decls, "filterable");
    ConfigFieldsCarrying(decls, "sortable");
    CarryingAtMostOne(fs, PrimaryKey);
    CarryingAtMostOne(fs, Distinct);
    IndexConfigAcceptsExactly(fs);
    GeneratedConfig(fs);
  }

  /** The settings and primary key of the `MovieClips` test struct. */
  lemma MovieClipsConfig()
    ensures IndexConfigOf(ConfigFields(MovieClipsDecls)).Ok?
    ensures IndexConfigOf(ConfigFields(MovieClipsDecls)).value.primaryKey == Some("movie_id")
    ensures GenerateSettings(IndexConfigOf(ConfigFields(MovieClipsDecls)).value)
            == Settings.Settings(None, None, None, Some(["release_date", "genres"]), Some(["release_date"]),
                                 Some("owner"), Some(["title"]),
                                 Some(["title", "description", "release_date", "genres"]), None, None)
  {
    MovieClipsAdmissible();
    MovieClipsDeclaring();
    DeclaredConfig(MovieClipsDecls);
  }

  /** A struct without `index_config` attributes still sets the four lists,
      empty, and nothing else; its index has no primary key. */
  lemma VideoClipsConfig()
    ensures IndexConfigOf(VideoClips).Ok?
    ensures IndexConfigOf(VideoClips).value.primaryKey == None
    ensures GenerateSettings(IndexConfigOf(VideoClips).value)
            == Settings.Settings(None, None, None, Some([]), Some([]), None, Some([]), Some([]), None, None)
  {
    assert FieldAcceptable(VideoClips[0]);
    CarryingAtMostOne(VideoClips, PrimaryKey);
    CarryingAtMostOne(VideoClips, Distinct);
    IndexConfigAcceptsExactly(VideoClips);
    GeneratedConfig(VideoClips);
  }
}
