/**
 * The filtered, paginated listing query of `songRepository`
 * (internal/repository/song_repository.go:57-75): the query text and the
 * positional arguments it binds. Running the query is the database's job and
 * enters the model as a function parameter.
 */
module SongRepository {
  import opened Wrappers
  import opened Models
  import Decimal

  /** The dynamic values a Go `[]interface{}` argument list carries here. */
  datatype Value = Str(s: string) | Int(i: int)

  /** One entry of the `filters` map: a column name and the value it must equal. */
  datatype Filter = Filter(key: string, value: Value)

  /** `r.db.Select(&songs, query, args...)`: the rows Postgres returns, or its error. */
  type Select = (string, seq<Value>) -> Result<seq<Song>>

  /**
   * The foreign half of the repository: each of these is a single sqlx call
   * against Postgres (lines 26-55), plus the `Select` the listing query runs on.
   */
  datatype Repository = Repository(
    create: Song -> Outcome,
    getByID: string -> Result<Song>,
    update: Song -> Outcome,
    delete: string -> Outcome,
    select: Select)

  const SelectPrefix: string := "SELECT * FROM songs WHERE 1=1"

  /** `$i`, the Postgres positional parameter number `i`: a dollar sign, then digits that read back as `i`. */
  function Placeholder(i: nat): (p: string)
    ensures |p| >= 2 && p[0] == '$'
    ensures Decimal.AllDigits(p[1..]) && Decimal.Parse(p[1..]) == i
  {
    var digits := Decimal.Format(i);
    Decimal.ParseFormat(i);
    assert ("$" + digits)[1..] == digits;
    "$" + digits
  }

  /** `fmt.Sprintf(" AND %s = $%d", k, i)`: the key is pasted in, the value is not. */
  function AndClause(key: string, i: nat): string {
    " AND " + key + " = " + Placeholder(i)
  }

  /** `fmt.Sprintf(" LIMIT $%d OFFSET $%d", i, i+1)`. */
  function LimitOffsetClause(i: nat): string {
    " LIMIT " + Placeholder(i) + " OFFSET " + Placeholder(i + 1)
  }

  /** The clauses for `filters`, the j-th (counting from 1) numbered `$j`. */
  function AndClauses(filters: seq<Filter>): string
    decreases |filters|
  {
    if filters == [] then ""
    else
      var n := |filters|;
      AndClauses(filters[..n - 1]) + AndClause(filters[n - 1].key, n)
  }

  /**
   * The whole query text built for `filters`: the rendering of the template
   * of literal SQL and numbered parameters.
   */
  function FilterQuery(filters: seq<Filter>): (q: string)
    ensures q == Render(Template(filters))
  {
    QueryRendersTemplate(filters);
    SelectPrefix + AndClauses(filters) + LimitOffsetClause(|filters| + 1)
  }

  /** The filter values, in filter order. */
  function Values(filters: seq<Filter>): (vs: seq<Value>)
    ensures |vs| == |filters|
    ensures forall j :: 0 <= j < |filters| ==> vs[j] == filters[j].value
    decreases |filters|
  {
    if filters == [] then [] else Values(filters[..|filters| - 1]) + [filters[|filters| - 1].value]
  }

  /** The filter keys (column names), in filter order. */
  function Keys(filters: seq<Filter>): (ks: seq<string>)
    ensures |ks| == |filters|
    ensures forall j :: 0 <= j < |filters| ==> ks[j] == filters[j].key
    decreases |filters|
  {
    if filters == [] then [] else Keys(filters[..|filters| - 1]) + [filters[|filters| - 1].key]
  }

  /** The argument list bound to the query's placeholders. */
  function FilterArgs(filters: seq<Filter>, limit: int, offset: int): (args: seq<Value>)
    ensures |args| == |filters| + 2
    ensures forall j :: 0 <= j < |filters| ==> args[j] == filters[j].value
    ensures args[|filters|] == Int(limit) && args[|filters| + 1] == Int(offset)
  {
    Values(filters) + [Int(limit), Int(offset)]
  }

  /**
   * `FilterWithPagination`. Go ranges over the `filters` map in an order it
   * does not specify; here that order is the order of the sequence.
   */
  method FilterWithPagination(db: Select, filters: seq<Filter>, limit: int, offset: int)
    returns (songs: Result<seq<Song>>)
    ensures songs == db(FilterQuery(filters), FilterArgs(filters, limit, offset))
  {
    var query := SelectPrefix;
    var args: seq<Value> := [];
    var i := 1;
    for k := 0 to |filters|
      invariant i == k + 1
      invariant query == SelectPrefix + AndClauses(filters[..k])
      invariant args == Values(filters[..k])
    {
      assert filters[..k + 1][..k] == filters[..k];
      Assoc(SelectPrefix, AndClauses(filters[..k]), AndClause(filters[k].key, i));
      query := query + AndClause(filters[k].key, i);
      args := args + [filters[k].value];
      i := i + 1;
    }
    assert filters[..|filters|] == filters;
    query := query + LimitOffsetClause(i);
    args := args + [Int(limit), Int(offset)];
    songs := db(query, args);
  }

  // ----- The query as a template of literal text and numbered parameters -----

  /** A piece of query text: literal SQL, or the positional parameter `$index`. */
  datatype Piece = Text(sql: string) | Param(index: nat)

  function PieceText(p: Piece): string {
    match p
    case Text(t) => t
    case Param(j) => Placeholder(j)
  }

  function PieceIndices(p: Piece): seq<nat> {
    match p
    case Text(_) => []
    case Param(j) => [j]
  }

  /** The query text a template stands for. */
  function Render(ps: seq<Piece>): string
    decreases |ps|
  {
    if ps == [] then "" else Render(ps[..|ps| - 1]) + PieceText(ps[|ps| - 1])
  }

  /** The parameter numbers of a template, in the order they appear. */
  function ParamIndices(ps: seq<Piece>): seq<nat>
    decreases |ps|
  {
    if ps == [] then [] else ParamIndices(ps[..|ps| - 1]) + PieceIndices(ps[|ps| - 1])
  }

  /**
   * The fixed prefix, then two pieces per filter: the column test and the
   * parameter it is compared with.
   */
  function WhereTemplate(filters: seq<Filter>): (ps: seq<Piece>)
    ensures |ps| == 2 * |filters| + 1
    decreases |filters|
  {
    if filters == [] then [Text(SelectPrefix)]
    else
      var n := |filters|;
      WhereTemplate(filters[..n - 1]) + [ColumnTest(filters[n - 1].key)] + [Param(n)]
  }

  function ColumnTest(key: string): Piece {
    Text(" AND " + key + " = ")
  }

  /** The listing query as a template; it mentions the filter keys and never their values. */
  function Template(filters: seq<Filter>): seq<Piece> {
    var n := |filters|;
    WhereTemplate(filters) + [Text(" LIMIT ")] + [Param(n + 1)] + [Text(" OFFSET ")] + [Param(n + 2)]
  }

  lemma Assoc(a: string, b: string, c: string)
    ensures (a + b) + c == a + (b + c)
  {
  }

  lemma Assoc4(a: string, b: string, c: string, d: string)
    ensures ((a + b) + c) + d == a + ((b + c) + d)
  {
  }

  lemma RenderSnoc(a: seq<Piece>, p: Piece)
    ensures Render(a + [p]) == Render(a) + PieceText(p)
  {
    assert (a + [p])[..|a|] == a;
  }

  lemma ParamIndicesSnoc(a: seq<Piece>, p: Piece)
    ensures ParamIndices(a + [p]) == ParamIndices(a) + PieceIndices(p)
  {
    assert (a + [p])[..|a|] == a;
  }

  lemma {:induction false} WhereTemplateRenders(filters: seq<Filter>)
    ensures Render(WhereTemplate(filters)) == SelectPrefix + AndClauses(filters)
    decreases |filters|
  {
    if filters == [] {
      RenderSnoc([], Text(SelectPrefix));
    } else {
      var n := |filters|;
      var init := filters[..n - 1];
      var test := ColumnTest(filters[n - 1].key);
      var w := WhereTemplate(init);
      assert WhereTemplate(filters) == w + [test] + [Param(n)];
      calc {
        Render(WhereTemplate(filters));
        { RenderSnoc(w + [test], Param(n)); }
        Render(w + [test]) + Placeholder(n);
        { RenderSnoc(w, test); }
        (Render(w) + test.sql) + Placeholder(n);
        { WhereTemplateRenders(init); }
        ((SelectPrefix + AndClauses(init)) + test.sql) + Placeholder(n);
        { Assoc(SelectPrefix + AndClauses(init), test.sql, Placeholder(n)); }
        (SelectPrefix + AndClauses(init)) + (test.sql + Placeholder(n));
        { Assoc(SelectPrefix, AndClauses(init), test.sql + Placeholder(n)); }
        SelectPrefix + (AndClauses(init) + (test.sql + Placeholder(n)));
      }
    }
  }

  lemma {:induction false} WhereTemplateIndices(filters: seq<Filter>)
    ensures var ix := ParamIndices(WhereTemplate(filters));
      |ix| == |filters| && forall j :: 0 <= j < |ix| ==> ix[j] == j + 1
    decreases |filters|
  {
    if filters == [] {
      ParamIndicesSnoc([], Text(SelectPrefix));
    } else {
      var n := |filters|;
      var init := filters[..n - 1];
      var test := ColumnTest(filters[n - 1].key);
      var t := WhereTemplate(init);
      WhereTemplateIndices(init);
      assert WhereTemplate(filters) == t + [test] + [Param(n)];
      ParamIndicesSnoc(t, test);
      ParamIndicesSnoc(t + [test], Param(n));
      var w := ParamIndices(t);
      assert ParamIndices(WhereTemplate(filters)) == w + [n] by {
        assert w + [] == w;
      }
      NumberedSnoc(w, n);
    }
  }

  /** Appending `n` to the numbers `1, ..., n-1` gives `1, ..., n`. */
  lemma NumberedSnoc(w: seq<nat>, n: nat)
    requires |w| + 1 == n
    requires forall j :: 0 <= j < |w| ==> w[j] == j + 1
    ensures forall j :: 0 <= j < n ==> (w + [n])[j] == j + 1
  {
  }

  lemma {:induction false} WhereTemplateAt(filters: seq<Filter>, j: nat)
    requires j < |filters|
    ensures WhereTemplate(filters)[2 * j + 1] == ColumnTest(filters[j].key)
    ensures WhereTemplate(filters)[2 * j + 2] == Param(j + 1)
    decreases |filters|
  {
    var n := |filters|;
    if j < n - 1 {
      WhereTemplateAt(filters[..n - 1], j);
    }
  }

  /** The string the method builds is the template, rendered. */
  lemma QueryRendersTemplate(filters: seq<Filter>)
    ensures Render(Template(filters)) == SelectPrefix + AndClauses(filters) + LimitOffsetClause(|filters| + 1)
  {
    var n := |filters|;
    var t0 := WhereTemplate(filters);
    var t1 := t0 + [Text(" LIMIT ")];
    var t2 := t1 + [Param(n + 1)];
    var t3 := t2 + [Text(" OFFSET ")];
    assert Template(filters) == t3 + [Param(n + 2)];
    var head := SelectPrefix + AndClauses(filters);
    var p1, p2 := Placeholder(n + 1), Placeholder(n + 2);
    RenderSnoc(t3, Param(n + 2));
    RenderSnoc(t2, Text(" OFFSET "));
    RenderSnoc(t1, Param(n + 1));
    RenderSnoc(t0, Text(" LIMIT "));
    WhereTemplateRenders(filters);
    calc {
      Render(Template(filters));
      Render(t3) + p2;
      (Render(t2) + " OFFSET ") + p2;
      (((Render(t0) + " LIMIT ") + p1) + " OFFSET ") + p2;
      (((head + " LIMIT ") + p1) + " OFFSET ") + p2;
      { Assoc(head, " LIMIT ", p1); }
      ((head + (" LIMIT " + p1)) + " OFFSET ") + p2;
      { Assoc4(head, " LIMIT " + p1, " OFFSET ", p2); }
      head + LimitOffsetClause(n + 1);
    }
  }

  /**
   * The query's placeholders are `$1`, `$2`, ..., `$(n+2)` in this order: one
   * per filter in filter order, then LIMIT's and OFFSET's; so they are
   * distinct and strictly increasing.
   */
  lemma PlaceholdersNumberedInOrder(filters: seq<Filter>)
    ensures var ix := ParamIndices(Template(filters));
      && |ix| == |filters| + 2
      && (forall j :: 0 <= j < |ix| ==> ix[j] == j + 1)
      && (forall a, b :: 0 <= a < b < |ix| ==> ix[a] < ix[b])
  {
    var n := |filters|;
    var w := ParamIndices(WhereTemplate(filters));
    WhereTemplateIndices(filters);
    TemplateIndices(filters);
    var ix := ParamIndices(Template(filters));
    forall j | 0 <= j < |ix| ensures ix[j] == j + 1 {
      if j < n {
        assert ix[j] == w[j];
      }
    }
  }

  lemma TemplateIndices(filters: seq<Filter>)
    ensures var n := |filters|;
      ParamIndices(Template(filters)) == ParamIndices(WhereTemplate(filters)) + [n + 1] + [n + 2]
  {
    var n := |filters|;
    var t0 := WhereTemplate(filters);
    var t1 := t0 + [Text(" LIMIT ")];
    var t2 := t1 + [Param(n + 1)];
    var t3 := t2 + [Text(" OFFSET ")];
    var w := ParamIndices(t0);
    calc {
      ParamIndices(Template(filters));
      { ParamIndicesSnoc(t3, Param(n + 2)); }
      ParamIndices(t3) + [n + 2];
      { ParamIndicesSnoc(t2, Text(" OFFSET ")); assert ParamIndices(t2) + [] == ParamIndices(t2); }
      ParamIndices(t2) + [n + 2];
      { ParamIndicesSnoc(t1, Param(n + 1)); }
      ParamIndices(t1) + [n + 1] + [n + 2];
      { ParamIndicesSnoc(t0, Text(" LIMIT ")); assert w + [] == w; }
      w + [n + 1] + [n + 2];
    }
  }

  /**
   * Every placeholder `$j` has an argument `args[j-1]`, and it is the right one:
   * the j-th filter's column is compared with `$j`, bound to that filter's
   * value; `$(n+1)` follows LIMIT and is bound to `limit`; `$(n+2)` follows
   * OFFSET and is bound to `offset`.
   */
  lemma PlaceholdersBindArguments(filters: seq<Filter>, limit: int, offset: int)
    ensures var t, args, n := Template(filters), FilterArgs(filters, limit, offset), |filters|;
      && |t| == 2 * n + 5
      && |args| == n + 2
      && (forall j :: 0 <= j < n ==>
            && t[2 * j + 1] == ColumnTest(filters[j].key)
            && t[2 * j + 2] == Param(j + 1)
            && args[j] == filters[j].value)
      && t[2 * n + 1] == Text(" LIMIT ") && t[2 * n + 2] == Param(n + 1) && args[n] == Int(limit)
      && t[2 * n + 3] == Text(" OFFSET ") && t[2 * n + 4] == Param(n + 2) && args[n + 1] == Int(offset)
  {
    var t := Template(filters);
    forall j | 0 <= j < |filters|
      ensures t[2 * j + 1] == ColumnTest(filters[j].key) && t[2 * j + 2] == Param(j + 1)
    {
      WhereTemplateAt(filters, j);
    }
  }

  /** Filter values never reach the query text: it depends on the keys alone. */
  lemma {:induction false} QueryIgnoresValues(f: seq<Filter>, g: seq<Filter>)
    requires Keys(f) == Keys(g)
    ensures FilterQuery(f) == FilterQuery(g)
  {
    ClausesIgnoreValues(f, g);
  }

  lemma {:induction false} ClausesIgnoreValues(f: seq<Filter>, g: seq<Filter>)
    requires Keys(f) == Keys(g)
    ensures AndClauses(f) == AndClauses(g)
    decreases |f|
  {
    if f != [] {
      var n := |f|;
      assert f[n - 1].key == Keys(f)[n - 1] == Keys(g)[n - 1] == g[n - 1].key;
      assert Keys(f[..n - 1]) == Keys(f)[..n - 1] == Keys(g)[..n - 1] == Keys(g[..n - 1]);
      ClausesIgnoreValues(f[..n - 1], g[..n - 1]);
    }
  }

  /** The query always starts with the fixed prefix, and the argument list has filters, limit, offset. */
  lemma QueryShape(filters: seq<Filter>, limit: int, offset: int)
    ensures SelectPrefix <= FilterQuery(filters)
    ensures var args, n := FilterArgs(filters, limit, offset), |filters|;
      |args| == n + 2 && args[..n] == Values(filters) && args[n] == Int(limit) && args[n + 1] == Int(offset)
  {
  }

  /** With no filters nothing but the pagination placeholders is added. */
  lemma NoFilters(limit: int, offset: int)
    ensures FilterQuery([]) == SelectPrefix + " LIMIT $1 OFFSET $2"
    ensures FilterArgs([], limit, offset) == [Int(limit), Int(offset)]
  {
    assert SelectPrefix + AndClauses([]) == SelectPrefix;
    LimitOffsetFrom1();
  }

  lemma LimitOffsetFrom1()
    ensures LimitOffsetClause(1) == " LIMIT $1 OFFSET $2"
  {
    SmallPlaceholders();
  }

  lemma SmallPlaceholders()
    ensures Placeholder(1) == "$1" && Placeholder(2) == "$2" && Placeholder(3) == "$3"
  {
  }

  lemma GroupClause()
    ensures AndClause("group_name", 1) == " AND group_name = $1"
  {
    SmallPlaceholders();
  }

  lemma LimitOffsetFrom2()
    ensures LimitOffsetClause(2) == " LIMIT $2 OFFSET $3"
  {
    SmallPlaceholders();
  }

  /** The handler's group filter: `?group=Muse` with the default limit 10 and offset 0. */
  lemma GroupFilterExample()
    ensures var f := [Filter("group_name", Str("Muse"))];
      && FilterQuery(f) == SelectPrefix + " AND group_name = $1" + " LIMIT $2 OFFSET $3"
      && FilterArgs(f, 10, 0) == [Str("Muse"), Int(10), Int(0)]
  {
    var f := [Filter("group_name", Str("Muse"))];
    assert f[..0] == [];
    assert AndClauses(f) == AndClause("group_name", 1);
    GroupClause();
    LimitOffsetFrom2();
  }
}
