/** The settings record of `src/settings.rs`, its builder functions, and the
    table of HTTP routes behind the `get_*`, `set_*` and `reset_*` facades of
    an index. */
module Settings {
  import opened Prelude
  import Request

  datatype PaginationSetting = PaginationSetting(maxTotalHits: USize)

  datatype FacetingSettings = FacetingSettings(maxValuesPerFacet: USize)

  /** The ten settings fields, used to name a field in contracts and in the
      route table. */
  datatype SettingName =
    | Synonyms | StopWords | RankingRules | FilterableAttributes | SortableAttributes
    | DistinctAttribute | SearchableAttributes | DisplayedAttributes | Pagination | Faceting

  /** `Settings`: every field is optional, and an absent field is left out of
      the JSON sent to the service. */
  datatype Settings = Settings(
    synonyms: Option<map<string, seq<string>>>,
    stopWords: Option<seq<string>>,
    rankingRules: Option<seq<string>>,
    filterableAttributes: Option<seq<string>>,
    sortableAttributes: Option<seq<string>>,
    distinctAttribute: Option<string>,
    searchableAttributes: Option<seq<string>>,
    displayedAttributes: Option<seq<string>>,
    pagination: Option<PaginationSetting>,
    faceting: Option<FacetingSettings>)
  {
    /** Whether the named field is present. */
    predicate Defines(f: SettingName) {
      match f
      case Synonyms => synonyms.Some?
      case StopWords => stopWords.Some?
      case RankingRules => rankingRules.Some?
      case FilterableAttributes => filterableAttributes.Some?
      case SortableAttributes => sortableAttributes.Some?
      case DistinctAttribute => distinctAttribute.Some?
      case SearchableAttributes => searchableAttributes.Some?
      case DisplayedAttributes => displayedAttributes.Some?
      case Pagination => pagination.Some?
      case Faceting => faceting.Some?
    }

    /** `with_synonyms`: the same keys, each with its list of synonyms in
        order; nothing else changes. */
    function WithSynonyms(m: map<string, seq<string>>): (r: Settings)
      ensures r.synonyms.Some? && r.synonyms.value.Keys == m.Keys
      ensures forall k :: k in m ==> r.synonyms.value[k] == m[k]
      ensures Differing(this, r) <= {Synonyms}
    {
      this.(synonyms := Some(m))
    }

    /** `with_stop_words`: the words in order; nothing else changes. */
    function WithStopWords(words: seq<string>): (r: Settings)
      ensures r.stopWords == Some(words)
      ensures Differing(this, r) <= {StopWords}
    {
      this.(stopWords := Some(words))
    }

    /** `with_pagination`: only the pagination changes. */
    function WithPagination(p: PaginationSetting): (r: Settings)
      ensures r.pagination == Some(p)
      ensures Differing(this, r) <= {Pagination}
    {
      this.(pagination := Some(p))
    }

    /** `with_ranking_rules`: the rules in order; nothing else changes. */
    function WithRankingRules(rules: seq<string>): (r: Settings)
      ensures r.rankingRules == Some(rules)
      ensures Differing(this, r) <= {RankingRules}
    {
      this.(rankingRules := Some(rules))
    }

    /** `with_filterable_attributes`: nothing else changes. */
    function WithFilterableAttributes(attrs: seq<string>): (r: Settings)
      ensures r.filterableAttributes == Some(attrs)
      ensures Differing(this, r) <= {FilterableAttributes}
    {
      this.(filterableAttributes := Some(attrs))
    }

    /** `with_sortable_attributes`: nothing else changes. */
    function WithSortableAttributes(attrs: seq<string>): (r: Settings)
      ensures r.sortableAttributes == Some(attrs)
      ensures Differing(this, r) <= {SortableAttributes}
    {
      this.(sortableAttributes := Some(attrs))
    }

    /** `with_distinct_attribute`: only the distinct attribute changes. */
    function WithDistinctAttribute(attr: string): (r: Settings)
      ensures r.distinctAttribute == Some(attr)
      ensures Differing(this, r) <= {DistinctAttribute}
    {
      this.(distinctAttribute := Some(attr))
    }

    /** `with_searchable_attributes`: nothing else changes. */
    function WithSearchableAttributes(attrs: seq<string>): (r: Settings)
      ensures r.searchableAttributes == Some(attrs)
      ensures Differing(this, r) <= {SearchableAttributes}
    {
      this.(searchableAttributes := Some(attrs))
    }

    /** `with_displayed_attributes`: nothing else changes. */
    function WithDisplayedAttributes(attrs: seq<string>): (r: Settings)
      ensures r.displayedAttributes == Some(attrs)
      ensures Differing(this, r) <= {DisplayedAttributes}
    {
      this.(displayedAttributes := Some(attrs))
    }

    /** `with_faceting`: only the faceting changes. */
    function WithFaceting(f: FacetingSettings): (r: Settings)
      ensures r.faceting == Some(f)
      ensures Differing(this, r) <= {Faceting}
    {
      this.(faceting := Some(f))
    }
  }

  /** `Settings::new`: no field is defined. */
  function New(): (s: Settings)
    ensures forall f: SettingName :: !s.Defines(f)
  {
    Settings(None, None, None, None, None, None, None, None, None, None)
  }

  /** The fields in which two settings records disagree. */
  function Differing(a: Settings, b: Settings): (d: set<SettingName>)
    ensures d == {} <==> a == b
  {
    (if a.synonyms != b.synonyms then {Synonyms} else {})
    + (if a.stopWords != b.stopWords then {StopWords} else {})
    + (if a.rankingRules != b.rankingRules then {RankingRules} else {})
    + (if a.filterableAttributes != b.filterableAttributes then {FilterableAttributes} else {})
    + (if a.sortableAttributes != b.sortableAttributes then {SortableAttributes} else {})
    + (if a.distinctAttribute != b.distinctAttribute then {DistinctAttribute} else {})
    + (if a.searchableAttributes != b.searchableAttributes then {SearchableAttributes} else {})
    + (if a.displayedAttributes != b.displayedAttributes then {DisplayedAttributes} else {})
    + (if a.pagination != b.pagination then {Pagination} else {})
    + (if a.faceting != b.faceting then {Faceting} else {})
  }

  /** A field on which `a` and `c` disagree is one on which `a` and `b`, or
      `b` and `c`, disagree. */
  lemma DifferingTransitive(a: Settings, b: Settings, c: Settings)
    ensures Differing(a, c) <= Differing(a, b) + Differing(b, c)
  {
  }

  /** One builder call, as data: the calls the index-config derivation
      emits, and the subject of the overwrite laws below. */
  datatype BuilderCall =
    | SetSynonyms(synonyms: map<string, seq<string>>)
    | SetStopWords(words: seq<string>)
    | SetRankingRules(rules: seq<string>)
    | SetFilterableAttributes(attrs: seq<string>)
    | SetSortableAttributes(attrs: seq<string>)
    | SetDistinctAttribute(attr: string)
    | SetSearchableAttributes(attrs: seq<string>)
    | SetDisplayedAttributes(attrs: seq<string>)
    | SetPagination(pagination: PaginationSetting)
    | SetFaceting(faceting: FacetingSettings)
  {
    /** The one field the builder writes. */
    function Target(): SettingName {
      match this
      case SetSynonyms(_) => Synonyms
      case SetStopWords(_) => StopWords
      case SetRankingRules(_) => RankingRules
      case SetFilterableAttributes(_) => FilterableAttributes
      case SetSortableAttributes(_) => SortableAttributes
      case SetDistinctAttribute(_) => DistinctAttribute
      case SetSearchableAttributes(_) => SearchableAttributes
      case SetDisplayedAttributes(_) => DisplayedAttributes
      case SetPagination(_) => Pagination
      case SetFaceting(_) => Faceting
    }
  }

  /** Applies one builder call: the builder it names. */
  function Apply(s: Settings, u: BuilderCall): Settings
  {
    match u
    case SetSynonyms(m) => s.WithSynonyms(m)
    case SetStopWords(w) => s.WithStopWords(w)
    case SetRankingRules(w) => s.WithRankingRules(w)
    case SetFilterableAttributes(w) => s.WithFilterableAttributes(w)
    case SetSortableAttributes(w) => s.WithSortableAttributes(w)
    case SetDistinctAttribute(a) => s.WithDistinctAttribute(a)
    case SetSearchableAttributes(w) => s.WithSearchableAttributes(w)
    case SetDisplayedAttributes(w) => s.WithDisplayedAttributes(w)
    case SetPagination(p) => s.WithPagination(p)
    case SetFaceting(f) => s.WithFaceting(f)
  }

  /** A builder call defines its own field and changes no other. */
  lemma ApplyFrame(s: Settings, u: BuilderCall)
    ensures Apply(s, u).Defines(u.Target())
    ensures Differing(s, Apply(s, u)) <= {u.Target()}
  {
  }

  /** A builder chain `s.with_a(..).with_b(..)...`, applied left to right. */
  function ApplyAll(s: Settings, us: seq<BuilderCall>): Settings
    decreases |us|
  {
    if us == [] then s else ApplyAll(Apply(s, us[0]), us[1..])
  }

  /** Each builder overwrites its field whatever it held: a later call on the
      same field replaces an earlier one. */
  lemma ApplyOverwrites(s: Settings, u: BuilderCall, v: BuilderCall)
    requires u.Target() == v.Target()
    ensures Apply(Apply(s, u), v) == Apply(s, v)
  {
  }

  /** Applying the same builder twice with the same argument is applying it
      once. */
  lemma ApplyIdempotent(s: Settings, u: BuilderCall)
    ensures Apply(Apply(s, u), u) == Apply(s, u)
  {
    ApplyOverwrites(s, u, u);
  }

  /** Builders of different fields commute. */
  lemma ApplyCommutes(s: Settings, u: BuilderCall, v: BuilderCall)
    requires u.Target() != v.Target()
    ensures Apply(Apply(s, u), v) == Apply(Apply(s, v), u)
  {
  }

  /** A field that two records define differently is one they disagree on. */
  lemma DefinesDiffering(a: Settings, b: Settings, f: SettingName)
    requires a.Defines(f) != b.Defines(f)
    ensures f in Differing(a, b)
  {
  }

  /** A builder call never removes a field: what was defined stays defined. */
  lemma ApplyKeepsDefined(s: Settings, u: BuilderCall, f: SettingName)
    requires s.Defines(f)
    ensures Apply(s, u).Defines(f)
  {
    if f != u.Target() {
      ApplyFrame(s, u);
      if !Apply(s, u).Defines(f) {
        DefinesDiffering(s, Apply(s, u), f);
      }
    }
  }

  /** Running a chain in two parts is running it whole. */
  lemma {:induction false} ApplyAllAppend(s: Settings, xs: seq<BuilderCall>, ys: seq<BuilderCall>)
    ensures ApplyAll(s, xs + ys) == ApplyAll(ApplyAll(s, xs), ys)
    decreases |xs|
  {
    if xs != [] {
      assert (xs + ys)[0] == xs[0] && (xs + ys)[1..] == xs[1..] + ys;
      ApplyAllAppend(Apply(s, xs[0]), xs[1..], ys);
    } else {
      assert xs + ys == ys;
    }
  }

  /** A builder chain leaves every field one of its calls names defined, and
      every field that was defined still defined. */
  lemma {:induction false} ApplyAllDefines(s: Settings, us: seq<BuilderCall>)
    ensures forall i :: 0 <= i < |us| ==> ApplyAll(s, us).Defines(us[i].Target())
    ensures forall f :: s.Defines(f) ==> ApplyAll(s, us).Defines(f)
    decreases |us|
  {
    if us != [] {
      var t := Apply(s, us[0]);
      ApplyFrame(s, us[0]);
      forall f | s.Defines(f)
        ensures t.Defines(f)
      {
        ApplyKeepsDefined(s, us[0], f);
      }
      ApplyAllDefines(t, us[1..]);
      forall i | 0 <= i < |us|
        ensures ApplyAll(s, us).Defines(us[i].Target())
      {
        if i > 0 {
          assert us[i] == us[1..][i - 1];
        }
      }
    }
  }

  /** A builder chain changes only the fields its calls name. */
  lemma {:induction false} ApplyAllFrame(s: Settings, us: seq<BuilderCall>)
    ensures forall f :: f in Differing(s, ApplyAll(s, us)) ==> exists i :: 0 <= i < |us| && us[i].Target() == f
    decreases |us|
  {
    if us != [] {
      var t := Apply(s, us[0]);
      ApplyFrame(s, us[0]);
      ApplyAllFrame(t, us[1..]);
      DifferingTransitive(s, t, ApplyAll(t, us[1..]));
      forall f | f in Differing(s, ApplyAll(s, us))
        ensures exists i :: 0 <= i < |us| && us[i].Target() == f
      {
        if f in Differing(t, ApplyAll(t, us[1..])) {
          var i :| 0 <= i < |us[1..]| && us[1..][i].Target() == f;
          assert us[i + 1].Target() == f;
        } else {
          assert us[0].Target() == f;
        }
      }
    }
  }

  /** A builder chain on `Settings::new()` defines exactly the fields one of
      its calls names. */
  lemma ChainDefines(us: seq<BuilderCall>)
    ensures forall f :: ApplyAll(New(), us).Defines(f) <==> exists i :: 0 <= i < |us| && us[i].Target() == f
  {
    ApplyAllFrame(New(), us);
    ApplyAllDefines(New(), us);
    forall f | ApplyAll(New(), us).Defines(f)
      ensures exists i :: 0 <= i < |us| && us[i].Target() == f
    {
      DefinesDiffering(New(), ApplyAll(New(), us), f);
    }
  }

  /** The part of an index's settings a facade addresses: the whole record
      (`/settings`) or one field (`/settings/<name>`). */
  datatype Endpoint = Whole | Single(name: SettingName)

  /** The three facade families: `get_*`, `set_*` and `reset_*`. */
  datatype Action = Fetch | Update | Reset

  /** The path of an endpoint below `/indexes/<uid>`. */
  function Path(e: Endpoint): string {
    match e
    case Whole => "/settings"
    case Single(Synonyms) => "/settings/synonyms"
    case Single(StopWords) => "/settings/stop-words"
    case Single(RankingRules) => "/settings/ranking-rules"
    case Single(FilterableAttributes) => "/settings/filterable-attributes"
    case Single(SortableAttributes) => "/settings/sortable-attributes"
    case Single(DistinctAttribute) => "/settings/distinct-attribute"
    case Single(SearchableAttributes) => "/settings/searchable-attributes"
    case Single(DisplayedAttributes) => "/settings/displayed-attributes"
    case Single(Pagination) => "/settings/pagination"
    case Single(Faceting) => "/settings/faceting"
  }

  /** Every endpoint has a path of its own. */
  lemma PathInjective(e1: Endpoint, e2: Endpoint)
    requires e1 != e2
    ensures Path(e1) != Path(e2)
  {
  }

  /** The record, pagination and faceting are updated by a partial PATCH; the
      other single settings are replaced by a PUT. */
  predicate PatchedOnUpdate(e: Endpoint) {
    e in {Whole, Single(Pagination), Single(Faceting)}
  }

  datatype Route = Route(verb: Request.HttpVerb, expected: U16)

  /** The facade table: every `get_*` is GET expecting 200; every `set_*` is
      PATCH (record, pagination, faceting) or PUT (the rest) expecting 202;
      every `reset_*` is DELETE expecting 202. */
  function RouteOf(e: Endpoint, a: Action): (r: Route)
    ensures a == Fetch ==> r == Route(Request.GET, 200)
    ensures a == Update ==> r == Route(if PatchedOnUpdate(e) then Request.PATCH else Request.PUT, 202)
    ensures a == Reset ==> r == Route(Request.DELETE, 202)
  {
    match a
    case Fetch => Route(Request.GET, 200)
    case Update => if PatchedOnUpdate(e) then Route(Request.PATCH, 202) else Route(Request.PUT, 202)
    case Reset => Route(Request.DELETE, 202)
  }

  /** The payload of a `set_*` facade. */
  datatype SettingsBody =
    | RecordBody(settings: Settings)
    | SynonymsBody(synonyms: map<string, seq<string>>)
    | WordsBody(words: seq<string>)
    | AttributeBody(attr: string)
    | PaginationBody(pagination: PaginationSetting)
    | FacetingBody(faceting: FacetingSettings)

  /** The payload type each `set_*` facade takes. */
  predicate BodyFits(e: Endpoint, b: SettingsBody) {
    match e
    case Whole => b.RecordBody?
    case Single(Synonyms) => b.SynonymsBody?
    case Single(DistinctAttribute) => b.AttributeBody?
    case Single(Pagination) => b.PaginationBody?
    case Single(Faceting) => b.FacetingBody?
    case Single(_) => b.WordsBody?
  }

  /** One facade call: `get_*`, `set_*` with its payload, or `reset_*`. */
  datatype SettingsOp = GetOp(e: Endpoint) | SetOp(e: Endpoint, body: SettingsBody) | ResetOp(e: Endpoint)

  /** What a facade passes to the dispatcher. */
  datatype Call = Call(url: string, apikey: Option<string>, wire: Request.Method<Unit, SettingsBody>, expected: U16)

  /** A settings facade: the URL of its endpoint on the index, the client's
      API key, a method whose verb and expected status are the table's, with
      the payload attached only by `set_*`, and no query. */
  function FacadeCall(host: string, apikey: Option<string>, uid: string, op: SettingsOp): (c: Call)
    requires op.SetOp? ==> BodyFits(op.e, op.body)
    ensures c.url == host + "/indexes/" + uid + Path(op.e)
    ensures c.apikey == apikey
    ensures var r := RouteOf(op.e, if op.GetOp? then Fetch else if op.SetOp? then Update else Reset);
      c.wire.HttpMethod() == r.verb && c.expected == r.expected
    ensures c.wire.HasBody() <==> op.SetOp?
    ensures op.SetOp? ==> c.wire.body == op.body
  {
    var url := host + "/indexes/" + uid + Path(op.e);
    match op
    case GetOp(e) => Call(url, apikey, Request.Get(Unit), 200)
    case SetOp(e, b) =>
      if PatchedOnUpdate(e) then Call(url, apikey, Request.Patch(Unit, b), 202)
      else Call(url, apikey, Request.Put(Unit, b), 202)
    case ResetOp(e) => Call(url, apikey, Request.Delete(Unit), 202)
  }
}
