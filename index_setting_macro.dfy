/** The `IndexConfig` derivation of `meilisearch-index-setting-macro/src/lib.rs`.

    A struct's fields carry `#[index_config(...)]` attributes. The derivation
    walks the fields in order, validates each field's attribute tokens against
    a "seen" set shared by the whole struct, sorts field names into the
    displayed, searchable, filterable and sortable lists and the primary and
    distinct keys, and decides which `Settings` builder calls the generated
    `generate_settings` performs.

    The token trees of `syn` are abstracted: an attribute is the result of
    `parse_meta` together with its raw tokens, whose top-level groups hold
    identifiers, punctuation and anything else. The specification is a
    family of left folds (`ScanStream`, `ScanTrees`, `ScanAttrs`,
    `DeriveFields`); the methods, which keep the source's loops and early
    returns, are proved equal to them. */
module IndexSettingMacro {
  import opened Prelude
  import Settings

  /** A token inside an attribute's parenthesised group. `Other` stands for
      literals and nested groups. */
  datatype Token = Ident(name: string) | Punct(ch: char, alone: bool) | Other

  /** A top-level token tree of an attribute: a group, or anything else. */
  datatype TokenTree = Group(stream: seq<Token>) | Leaf

  /** What `Attribute::parse_meta` makes of an attribute. */
  datatype ParsedMeta = ListMeta(path: seq<string>) | PathMeta | NameValueMeta | MetaError(message: string)

  datatype Attribute = Attribute(meta: ParsedMeta, tokens: seq<TokenTree>)

  /** A struct field; tuple-struct fields have no identifier. */
  datatype Field = Field(ident: Option<string>, attrs: seq<Attribute>)

  /** The item the derive is applied to. */
  datatype Input = StructInput(name: string, fields: seq<Field>) | OtherInput(name: string)

  /** The compile errors the derivation emits, and the panic of unwrapping
      the identifier of an unnamed field. */
  datatype MacroError =
    | NotAStruct
    | PrimaryKeyExists
    | DistinctExists
    | ExistsForField(name: string)
    | UnknownProperty(name: string)
    | CommaExpected
    | InvalidParsing
    | MetaParse(message: string)
    | UnnamedFieldPanic

  const PrimaryKey: string := "primary_key"
  const Distinct: string := "distinct"
  const ValidAttributeNames: set<string> :=
    {"displayed", "searchable", "filterable", "sortable", PrimaryKey, Distinct}
  const IndexConfigPath: seq<string> := ["index_config"]

  // ---------------------------------------------------------------------
  // Specification: the token validator as a left fold
  // ---------------------------------------------------------------------

  /** The validator's state: the struct-wide set of attribute names seen so
      far, the set seen on the current field, and the current field's names
      in order. */
  datatype Scan = Scan(global: set<string>, local: set<string>, names: seq<string>)

  /** `validate_punct`: only a lone comma is accepted. */
  function ValidatePunct(ch: char, alone: bool): (r: Option<MacroError>)
    ensures r.None? <==> ch == ',' && alone
    ensures r.Some? ==> r.value == CommaExpected
  {
    if ch == ',' && alone then None else Some(CommaExpected)
  }

  /** One token of an `index_config` group, with the checks in the source's
      order. */
  function ScanToken(t: Token, s: Scan): Result<Scan, MacroError> {
    match t
    case Punct(c, alone) =>
      if ValidatePunct(c, alone).Some? then Err(ValidatePunct(c, alone).value) else Ok(s)
    case Ident(n) =>
      if n == PrimaryKey && PrimaryKey in s.global then Err(PrimaryKeyExists)
      else if n == Distinct && Distinct in s.global then Err(DistinctExists)
      else if n in s.local then Err(ExistsForField(n))
      else if n !in ValidAttributeNames then Err(UnknownProperty(n))
      else Ok(Scan(s.global + {n}, s.local + {n}, s.names + [n]))
    case Other => Err(InvalidParsing)
  }

  function ScanStream(ts: seq<Token>, s: Scan): Result<Scan, MacroError>
    decreases |ts|
  {
    if ts == [] then Ok(s)
    else match ScanToken(ts[0], s)
      case Err(e) => Err(e)
      case Ok(s') => ScanStream(ts[1..], s')
  }

  /** Only top-level groups are looked into. */
  function ScanTrees(trees: seq<TokenTree>, s: Scan): Result<Scan, MacroError>
    decreases |trees|
  {
    if trees == [] then Ok(s)
    else match trees[0]
      case Leaf => ScanTrees(trees[1..], s)
      case Group(stream) =>
        match ScanStream(stream, s)
        case Err(e) => Err(e)
        case Ok(s') => ScanTrees(trees[1..], s')
  }

  predicate StreamPunctsValid(stream: seq<Token>) {
    forall i :: 0 <= i < |stream| && stream[i].Punct? ==> ValidatePunct(stream[i].ch, stream[i].alone).None?
  }

  predicate TreesPunctsValid(trees: seq<TokenTree>) {
    forall k :: 0 <= k < |trees| && trees[k].Group? ==> StreamPunctsValid(trees[k].stream)
  }

  /** One attribute: `index_config` lists are scanned, other lists, paths and
      name-value attributes are skipped, and one that does not parse is an
      error (a comma error first if its groups hold bad punctuation). */
  function ScanAttr(a: Attribute, s: Scan): Result<Scan, MacroError> {
    match a.meta
    case ListMeta(path) => if path != IndexConfigPath then Ok(s) else ScanTrees(a.tokens, s)
    case MetaError(message) => if !TreesPunctsValid(a.tokens) then Err(CommaExpected) else Err(MetaParse(message))
    case PathMeta => Ok(s)
    case NameValueMeta => Ok(s)
  }

  function ScanAttrs(attrs: seq<Attribute>, s: Scan): Result<Scan, MacroError>
    decreases |attrs|
  {
    if attrs == [] then Ok(s)
    else match ScanAttr(attrs[0], s)
      case Err(e) => Err(e)
      case Ok(s') => ScanAttrs(attrs[1..], s')
  }

  /** `extract_all_attr_values` as a function: a field's attribute names in
      order, and the struct-wide set after the field. */
  function ExtractAll(attrs: seq<Attribute>, seen: set<string>): Result<(seq<string>, set<string>), MacroError> {
    match ScanAttrs(attrs, Scan(seen, {}, []))
    case Err(e) => Err(e)
    case Ok(s) => Ok((s.names, s.global))
  }

  // ---------------------------------------------------------------------
  // Specification: the field loop as a left fold
  // ---------------------------------------------------------------------

  /** The accumulators of `get_index_config_implementation`; an empty key
      string means "no such field". */
  datatype Acc = Acc(seen: set<string>, primaryKey: string, distinctKey: string,
                     displayed: seq<string>, searchable: seq<string>,
                     filterable: seq<string>, sortable: seq<string>)

  const InitialAcc: Acc := Acc({}, "", "", [], [], [], [])

  /** One arm of the attribute match. */
  function Record(acc: Acc, attribute: string, name: string): Acc {
    if attribute == "displayed" then acc.(displayed := acc.displayed + [name])
    else if attribute == "searchable" then acc.(searchable := acc.searchable + [name])
    else if attribute == "filterable" then acc.(filterable := acc.filterable + [name])
    else if attribute == "sortable" then acc.(sortable := acc.sortable + [name])
    else if attribute == PrimaryKey then acc.(primaryKey := name)
    else if attribute == Distinct then acc.(distinctKey := name)
    else acc
  }

  /** The loop over one field's attribute names; every known name unwraps
      the field's identifier. */
  function Classify(ident: Option<string>, names: seq<string>, acc: Acc): Result<Acc, MacroError>
    decreases |names|
  {
    if names == [] then Ok(acc)
    else if names[0] in ValidAttributeNames && ident.None? then Err(UnnamedFieldPanic)
    else Classify(ident, names[1..], if ident.Some? then Record(acc, names[0], ident.value) else acc)
  }

  /** The field loop; the first error aborts the derivation. */
  function DeriveFields(fields: seq<Field>, acc: Acc): Result<Acc, MacroError>
    decreases |fields|
  {
    if fields == [] then Ok(acc)
    else match ExtractAll(fields[0].attrs, acc.seen)
      case Err(e) => Err(e)
      case Ok(extracted) =>
        match Classify(fields[0].ident, extracted.0, acc.(seen := extracted.1))
        case Err(e) => Err(e)
        case Ok(acc') => DeriveFields(fields[1..], acc')
  }

  /** The four list-valued builders the generated code calls. */
  datatype ListSetting = DisplayedList | SortableList | FilterableList | SearchableList

  /** `get_settings_token_for_list`: the builder is always called, with the
      list of names, empty or not. */
  function GetSettingsTokenForList(names: seq<string>, setting: ListSetting): (c: Settings.BuilderCall)
    ensures c.Target() == match setting
                          case DisplayedList => Settings.DisplayedAttributes
                          case SortableList => Settings.SortableAttributes
                          case FilterableList => Settings.FilterableAttributes
                          case SearchableList => Settings.SearchableAttributes
    ensures c.attrs == names
  {
    match setting
    case DisplayedList => Settings.SetDisplayedAttributes(names)
    case SortableList => Settings.SetSortableAttributes(names)
    case FilterableList => Settings.SetFilterableAttributes(names)
    case SearchableList => Settings.SetSearchableAttributes(names)
  }

  /** `get_settings_token_for_string`: the distinct-attribute builder is
      called exactly when a name was recorded. */
  function GetSettingsTokenForString(name: string): (c: Option<Settings.BuilderCall>)
    ensures c.None? <==> name == ""
    ensures c.Some? ==> c.value == Settings.SetDistinctAttribute(name)
  {
    if name != "" then Some(Settings.SetDistinctAttribute(name)) else None
  }

  /** What the derivation generates: the builder chain of
      `generate_settings` and the primary key `generate_index` passes to
      index creation. */
  datatype IndexConfig = IndexConfig(settingsCalls: seq<Settings.BuilderCall>, primaryKey: Option<string>)

  /** The end of `get_index_config_implementation`: the list builders in the
      order displayed, sortable, filterable, searchable, each with its
      accumulated names; then the distinct builder when a field carried it;
      and the primary key exactly when a field carried it. */
  function Finish(acc: Acc): (r: IndexConfig)
    ensures |r.settingsCalls| == if acc.distinctKey == "" then 4 else 5
    ensures r.settingsCalls[0] == Settings.SetDisplayedAttributes(acc.displayed)
    ensures r.settingsCalls[1] == Settings.SetSortableAttributes(acc.sortable)
    ensures r.settingsCalls[2] == Settings.SetFilterableAttributes(acc.filterable)
    ensures r.settingsCalls[3] == Settings.SetSearchableAttributes(acc.searchable)
    ensures acc.distinctKey != "" ==> r.settingsCalls[4] == Settings.SetDistinctAttribute(acc.distinctKey)
    ensures r.primaryKey.None? <==> acc.primaryKey == ""
    ensures r.primaryKey.Some? ==> r.primaryKey.value == acc.primaryKey
  {
    var distinct := GetSettingsTokenForString(acc.distinctKey);
    IndexConfig(
      [GetSettingsTokenForList(acc.displayed, DisplayedList),
       GetSettingsTokenForList(acc.sortable, SortableList),
       GetSettingsTokenForList(acc.filterable, FilterableList),
       GetSettingsTokenForList(acc.searchable, SearchableList)]
      + (if distinct.Some? then [distinct.value] else []),
      if acc.primaryKey == "" then None else Some(acc.primaryKey))
  }

  /** The derivation of a struct's fields. */
  function IndexConfigOf(fields: seq<Field>): Result<IndexConfig, MacroError> {
    match DeriveFields(fields, InitialAcc)
    case Err(e) => Err(e)
    case Ok(acc) => Ok(Finish(acc))
  }

  /** `generate_settings` of the generated implementation: the emitted
      builder chain on `Settings::new()`, which defines exactly the fields
      that one of the calls names. */
  function GenerateSettings(config: IndexConfig): (s: Settings.Settings)
    ensures forall f :: s.Defines(f)
                        <==> exists i :: 0 <= i < |config.settingsCalls| && config.settingsCalls[i].Target() == f
  {
    Settings.ChainDefines(config.settingsCalls);
    Settings.ApplyAll(Settings.New(), config.settingsCalls)
  }

  // ---------------------------------------------------------------------
  // The source's loops
  // ---------------------------------------------------------------------

  /** The innermost loop of `extract_all_attr_values`: the tokens of one
      `index_config` group, checked against the struct-wide and the
      per-field sets. */
  method ScanGroupStream(stream: seq<Token>, attributeSet: set<string>, localAttributeSet: set<string>,
                         attributeNames: seq<string>)
    returns (r: Result<Scan, MacroError>)
    ensures r == ScanStream(stream, Scan(attributeSet, localAttributeSet, attributeNames))
  {
    var global, local, names := attributeSet, localAttributeSet, attributeNames;
    var j := 0;
    while j < |stream|
      invariant 0 <= j <= |stream|
      invariant ScanStream(stream, Scan(attributeSet, localAttributeSet, attributeNames))
             == ScanStream(stream[j..], Scan(global, local, names))
    {
      assert stream[j..][0] == stream[j] && stream[j..][1..] == stream[j + 1..];
      match stream[j] {
      case Punct(c, alone) =>
        var bad := ValidatePunct(c, alone);
        if bad.Some? {
          return Err(bad.value);
        }
      case Ident(n) =>
        if n == PrimaryKey && PrimaryKey in global {
          return Err(PrimaryKeyExists);
        }
        if n == Distinct && Distinct in global {
          return Err(DistinctExists);
        }
        if n in local {
          return Err(ExistsForField(n));
        }
        if n !in ValidAttributeNames {
          return Err(UnknownProperty(n));
        }
        names := names + [n];
        global := global + {n};
        local := local + {n};
      case Other =>
        return Err(InvalidParsing);
      }
      j := j + 1;
    }
    r := Ok(Scan(global, local, names));
  }

  /** The punctuation check of an attribute that `parse_meta` rejects. */
  method ValidateAllPuncts(trees: seq<TokenTree>) returns (r: Option<MacroError>)
    ensures r.None? <==> TreesPunctsValid(trees)
    ensures r.Some? ==> r.value == CommaExpected
  {
    var k := 0;
    while k < |trees|
      invariant 0 <= k <= |trees|
      invariant TreesPunctsValid(trees[..k])
    {
      if trees[k].Group? {
        var stream := trees[k].stream;
        var t := 0;
        while t < |stream|
          invariant 0 <= t <= |stream|
          invariant StreamPunctsValid(stream[..t])
        {
          if stream[t].Punct? {
            var bad := ValidatePunct(stream[t].ch, stream[t].alone);
            if bad.Some? {
              assert !StreamPunctsValid(trees[k].stream);
              return bad;
            }
          }
          assert stream[..t + 1] == stream[..t] + [stream[t]];
          t := t + 1;
        }
        assert stream[..t] == stream;
      }
      assert trees[..k + 1] == trees[..k] + [trees[k]];
      k := k + 1;
    }
    assert trees[..k] == trees;
    r := None;
  }

  /** `extract_all_attr_values`: the struct-wide set is passed in and handed
      back, as the source threads it through a mutable reference. */
  method ExtractAllAttrValues(attrs: seq<Attribute>, attributeSet: set<string>)
    returns (r: Result<seq<string>, MacroError>, attributeSet': set<string>)
    ensures r.Err? <==> ExtractAll(attrs, attributeSet).Err?
    ensures r.Err? ==> r.error == ExtractAll(attrs, attributeSet).error
    ensures r.Ok? ==> (r.value, attributeSet') == ExtractAll(attrs, attributeSet).value
  {
    var start := Scan(attributeSet, {}, []);
    var s := start;
    var i := 0;
    while i < |attrs|
      invariant 0 <= i <= |attrs|
      invariant ScanAttrs(attrs, start) == ScanAttrs(attrs[i..], s)
    {
      var attr := attrs[i];
      assert attrs[i..][0] == attr && attrs[i..][1..] == attrs[i + 1..];
      match attr.meta {
      case ListMeta(path) =>
        if path == IndexConfigPath {
          var cur := s;
          var k := 0;
          while k < |attr.tokens|
            invariant 0 <= k <= |attr.tokens|
            invariant ScanTrees(attr.tokens, s) == ScanTrees(attr.tokens[k..], cur)
          {
            assert attr.tokens[k..][0] == attr.tokens[k] && attr.tokens[k..][1..] == attr.tokens[k + 1..];
            if attr.tokens[k].Group? {
              var scanned := ScanGroupStream(attr.tokens[k].stream, cur.global, cur.local, cur.names);
              if scanned.Err? {
                return Err(scanned.error), cur.global;
              }
              cur := scanned.value;
            }
            k := k + 1;
          }
          s := cur;
        }
      case MetaError(message) =>
        var bad := ValidateAllPuncts(attr.tokens);
        if bad.Some? {
          return Err(bad.value), s.global;
        }
        return Err(MetaParse(message)), s.global;
      case PathMeta =>
      case NameValueMeta =>
      }
      i := i + 1;
    }
    r, attributeSet' := Ok(s.names), s.global;
  }

  /** `get_index_config_implementation`: the field loop with its four list
      accumulators and two key strings, then the generated builder chain and
      primary key. */
  method GetIndexConfigImplementation(fields: seq<Field>) returns (r: Result<IndexConfig, MacroError>)
    ensures r == IndexConfigOf(fields)
  {
    var attributeSet: set<string> := {};
    var primaryKeyAttribute, distinctKeyAttribute := "", "";
    var displayed: seq<string>, searchable: seq<string> := [], [];
    var filterable: seq<string>, sortable: seq<string> := [], [];
    var i := 0;
    while i < |fields|
      invariant 0 <= i <= |fields|
      invariant DeriveFields(fields, InitialAcc)
             == DeriveFields(fields[i..], Acc(attributeSet, primaryKeyAttribute, distinctKeyAttribute,
                                              displayed, searchable, filterable, sortable))
    {
      var field := fields[i];
      assert fields[i..][0] == field && fields[i..][1..] == fields[i + 1..];
      ghost var before := Acc(attributeSet, primaryKeyAttribute, distinctKeyAttribute,
                              displayed, searchable, filterable, sortable);
      var attributeList, seen := ExtractAllAttrValues(field.attrs, attributeSet);
      if attributeList.Err? {
        return Err(attributeList.error);
      }
      attributeSet := seen;
      var list := attributeList.value;
      ghost var start := before.(seen := seen);
      var j := 0;
      while j < |list|
        invariant 0 <= j <= |list|
        invariant Classify(field.ident, list, start)
               == Classify(field.ident, list[j..], Acc(attributeSet, primaryKeyAttribute, distinctKeyAttribute,
                                                       displayed, searchable, filterable, sortable))
      {
        var attribute := list[j];
        assert list[j..][0] == attribute && list[j..][1..] == list[j + 1..];
        if attribute in ValidAttributeNames && field.ident.None? {
          return Err(UnnamedFieldPanic);
        }
        if attribute == "displayed" {
          displayed := displayed + [field.ident.value];
        } else if attribute == "searchable" {
          searchable := searchable + [field.ident.value];
        } else if attribute == "filterable" {
          filterable := filterable + [field.ident.value];
        } else if attribute == "sortable" {
          sortable := sortable + [field.ident.value];
        } else if attribute == PrimaryKey {
          primaryKeyAttribute := field.ident.value;
        } else if attribute == Distinct {
          distinctKeyAttribute := field.ident.value;
        }
        j := j + 1;
      }
      i := i + 1;
    }
    r := Ok(Finish(Acc(attributeSet, primaryKeyAttribute, distinctKeyAttribute,
                       displayed, searchable, filterable, sortable)));
  }

  /** `generate_index_settings`: the derive applies to structs only. */
  method GenerateIndexSettings(input: Input) returns (r: Result<IndexConfig, MacroError>)
    ensures input.OtherInput? ==> r == Err(NotAStruct)
    ensures input.StructInput? ==> r == IndexConfigOf(input.fields)
  {
    match input
    case OtherInput(_) =>
      r := Err(NotAStruct);
    case StructInput(_, fields) =>
      r := GetIndexConfigImplementation(fields);
  }
}
