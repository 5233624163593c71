/** What a valid create request guarantees: normalised table lists, distinct databases, one user each. */
module Requests {
  import opened Store
  import opened World
  import opened Wrappers

  const MAX_NAME_LEN := 64
  const MAX_DBS := 10

  predicate NameChar(c: char) {
    'A' <= c <= 'Z' || 'a' <= c <= 'z' || '0' <= c <= '9' || c == '_'
  }

  /** The codes that the class stands for: the digits, both alphabets and the underscore. */
  lemma NameCharsExactly(c: char)
    ensures var n := c as int;
      NameChar(c) <==> 48 <= n <= 57 || 65 <= n <= 90 || n == 95 || 97 <= n <= 122
  {
  }

  /** `$` matches at the end, and also just before one final newline. */
  predicate DollarMatches(s: string, n: nat) {
    n == |s| || (n + 1 == |s| && s[n] == '\n')
  }

  /** `^[A-Za-z0-9_]+$` with `re.match`: some non-empty run of name characters ends where `$` matches. */
  predicate NameMatches(s: string) {
    exists n: nat | 1 <= n <= |s| :: DollarMatches(s, n) && forall i | 0 <= i < n :: NameChar(s[i])
  }

  predicate ValidName(s: string) {
    |s| <= MAX_NAME_LEN && NameMatches(s)
  }

  predicate CleanName(s: string) {
    s != [] && forall i | 0 <= i < |s| :: NameChar(s[i])
  }

  /** Exactly which names are accepted: the clean ones, and a clean one followed by one newline. */
  lemma ValidNameExactly(s: string)
    ensures ValidName(s) <==>
      |s| <= 64 && (CleanName(s) || exists name :: s == name + "\n" && CleanName(name))
    ensures CleanName(s) && |s| < 64 ==> ValidName(s + "\n") && !CleanName(s + "\n")
  {
    if NameMatches(s) && !CleanName(s) {
      var n: nat :| 1 <= n <= |s| && DollarMatches(s, n) && forall i | 0 <= i < n :: NameChar(s[i]);
      assert s == s[..n] + "\n" && CleanName(s[..n]);
    }
    if CleanName(s) {
      assert DollarMatches(s, |s|);
      NewlinePasses(s);
    }
    if name :| s == name + "\n" && CleanName(name) {
      NewlinePasses(name);
    }
  }

  lemma NewlinePasses(name: string)
    requires CleanName(name)
    ensures NameMatches(name + "\n") && !CleanName(name + "\n")
  {
    assert DollarMatches(name + "\n", |name|);
    assert !NameChar((name + "\n")[|name|]);
  }

  // ---- tables ----

  /** A JSON value given for `tables`. */
  datatype TablesInput = Null | Text(text: string) | Items(items: seq<Item>) | OtherValue

  datatype Item = Str(s: string) | NotStr

  datatype Tables = Omitted | All | Listed(names: seq<string>)

  datatype TablesError = EmptyList | NotText | InvalidName(name: string) | Duplicate(name: string) | NotAList

  datatype DBSpec = DBSpec(name: string, tables: Tables)

  predicate Distinct<T(==)>(xs: seq<T>) {
    forall i, j | 0 <= i < j < |xs| :: xs[i] != xs[j]
  }

  predicate GoodTables(items: seq<Item>) {
    && (forall i | 0 <= i < |items| :: items[i].Str? && ValidName(items[i].s))
    && Distinct(items)
  }

  /** Item `k` is the first that spoils the list, and why. */
  predicate Spoils(items: seq<Item>, k: nat, e: TablesError) {
    && k < |items| && GoodTables(items[..k])
    && match items[k]
       case NotStr => e == NotText
       case Str(t) =>
         if !ValidName(t) then e == InvalidName(t)
         else items[k] in items[..k] && e == Duplicate(t)
  }

  function Texts(items: seq<Item>): seq<string>
    requires forall i | 0 <= i < |items| :: items[i].Str?
  {
    seq(|items|, i requires 0 <= i < |items| => items[i].s)
  }

  /** The items `_normalise_tables` checks: a bare string other than "all" counts as a list of one. */
  function AsItems(v: TablesInput): seq<Item> {
    match v
    case Text(t) => [Str(t)]
    case Items(xs) => xs
    case _ => []
  }

  lemma TextsAreValid(items: seq<Item>)
    requires items != [] && GoodTables(items)
    ensures ValidTables(Listed(Texts(items)))
  {
    var ts := Texts(items);
    forall i, j | 0 <= i < j < |ts| ensures ts[i] != ts[j] {
      assert items[i] != items[j];
    }
  }

  predicate AcceptsTables(v: TablesInput) {
    v.Null? || v == Text("all") || (AsItems(v) != [] && GoodTables(AsItems(v)))
  }

  method NormaliseTables(v: TablesInput) returns (r: Result<Tables, TablesError>)
    ensures v.Null? ==> r == Success(Omitted)
    ensures v == Text("all") ==> r == Success(All)
    ensures v.OtherValue? ==> r == Failure(NotAList)
    ensures v == Items([]) ==> r == Failure(EmptyList)
    ensures v != Text("all") && AsItems(v) != [] ==>
      if GoodTables(AsItems(v)) then r == Success(Listed(Texts(AsItems(v))))
      else r.Failure? && exists k: nat :: Spoils(AsItems(v), k, r.error)
    ensures r.Success? <==> AcceptsTables(v)
    ensures r.Success? ==> ValidTables(r.value)
    ensures v.Text? && v.text != "all" ==>
      r == if ValidName(v.text) then Success(Listed([v.text])) else Failure(InvalidName(v.text))
    ensures v.Items? ==> (r.Success? <==>
      && v.items != []
      && (forall i | 0 <= i < |v.items| :: v.items[i].Str? && ValidName(v.items[i].s))
      && (forall i, j | 0 <= i < j < |v.items| :: v.items[i] != v.items[j]))
    ensures v.Items? && r.Success? ==>
      && r.value.Listed? && |r.value.names| == |v.items|
      && forall i | 0 <= i < |v.items| :: v.items[i] == Str(r.value.names[i])
  {
    if v.Null? { return Success(Omitted); }
    if v.Text? && v.text == "all" { return Success(All); }
    if v.OtherValue? { return Failure(NotAList); }
    var items := AsItems(v);
    if items == [] { return Failure(EmptyList); }
    hide ValidName;
    r := NormaliseItems(items);
    if v.Text? {
      OneText(v.text, r);
    }
  }

  lemma OneText(t: string, r: Result<Tables, TablesError>)
    requires var items := [Str(t)];
      if GoodTables(items) then r == Success(Listed(Texts(items)))
      else r.Failure? && exists k: nat :: Spoils(items, k, r.error)
    ensures r == if ValidName(t) then Success(Listed([t])) else Failure(InvalidName(t))
  {
    hide ValidName;
    var items := [Str(t)];
    assert Texts(items) == [t];
    assert GoodTables(items) <==> ValidName(t) by {
      assert items[0].s == t;
    }
    if !GoodTables(items) {
      var k: nat :| Spoils(items, k, r.error);
      assert k == 0;
    }
  }

  /** The loop over a non-empty list. */
  method NormaliseItems(items: seq<Item>) returns (r: Result<Tables, TablesError>)
    requires items != []
    ensures if GoodTables(items) then r == Success(Listed(Texts(items))) && ValidTables(r.value)
            else r.Failure? && exists k: nat :: Spoils(items, k, r.error)
  {
    hide ValidName, Texts;
    var seen: set<string> := {};
    for k := 0 to |items|
      invariant GoodTables(items[..k])
      invariant forall t :: t in seen <==> Str(t) in items[..k]
    {
      assert items[..k + 1] == items[..k] + [items[k]];
      match items[k]
      case NotStr =>
        assert Spoils(items, k, NotText);
        assert !GoodTables(items);
        return Failure(NotText);
      case Str(t) =>
        if !ValidName(t) {
          assert Spoils(items, k, InvalidName(t));
          return Failure(InvalidName(t));
        }
        if t in seen {
          assert Spoils(items, k, Duplicate(t));
          var j :| 0 <= j < k && items[..k][j] == items[k];
          assert items[j] == items[k];
          return Failure(Duplicate(t));
        }
        seen := seen + {t};
    }
    assert items[..|items|] == items;
    TextsAreValid(items);
    return Success(Listed(Texts(items)));
  }

  /** What a validated spec looks like. */
  predicate ValidSpec(s: DBSpec) {
    ValidName(s.name) && ValidTables(s.tables)
  }

  predicate ValidTables(t: Tables) {
    t.Listed? ==> t.names != [] && Distinct(t.names) && forall i | 0 <= i < |t.names| :: ValidName(t.names[i])
  }

  predicate IsFull(s: DBSpec) {
    s.tables.Omitted? || s.tables.All? || s.tables == Listed([])
  }

  function TableList(s: DBSpec): Option<seq<string>> {
    if IsFull(s) then None else Some(s.tables.names)
  }

  /** What `clone_db` receives: `spec.table_list or ()`; an empty sequence means a full dump. */
  function CloneTables(s: DBSpec): seq<string> {
    match TableList(s) case None => [] case Some(ts) => ts
  }

  /** A valid partial spec reaches the clone as it is, non-empty and without repetition; only a full one
      asks for a full dump. */
  lemma PartialStaysPartial(s: DBSpec)
    requires ValidSpec(s)
    ensures CloneTables(s) == [] <==> IsFull(s)
    ensures Distinct(CloneTables(s))
    ensures s.tables.Listed? ==> CloneTables(s) == s.tables.names
  {
  }

  // ---- databases ----

  function Names(dbs: seq<DBSpec>): seq<string> {
    seq(|dbs|, i requires 0 <= i < |dbs| => dbs[i].name)
  }

  function Members(xs: seq<string>): (s: set<string>)
    ensures forall x :: x in s <==> x in xs
  {
    set x | x in xs
  }

  /** `_unique_dbs` compares sizes; that is the same as having no duplicate. */
  predicate UniqueDbs(dbs: seq<DBSpec>) {
    |Members(Names(dbs))| == |dbs|
  }

  lemma {:induction false} SizesTellDuplicates(xs: seq<string>)
    ensures |Members(xs)| <= |xs|
    ensures |Members(xs)| == |xs| <==> Distinct(xs)
  {
    if xs != [] {
      var ys, x := xs[..|xs| - 1], xs[|xs| - 1];
      assert xs == ys + [x];
      SizesTellDuplicates(ys);
      assert Members(xs) == Members(ys) + {x};
      DistinctAppend(ys, x);
      if x in ys {
        assert Members(xs) == Members(ys);
      }
    }
  }

  lemma DistinctAppend(ys: seq<string>, x: string)
    ensures Distinct(ys + [x]) <==> Distinct(ys) && x !in ys
  {
    var xs := ys + [x];
    if Distinct(xs) {
      forall i | 0 <= i < |ys| ensures ys[i] != x {
        assert xs[i] != xs[|ys|];
      }
      forall i, j | 0 <= i < j < |ys| ensures ys[i] != ys[j] {
        assert xs[i] != xs[j];
      }
    }
  }

  predicate ValidRequest(dbs: seq<DBSpec>) {
    && 1 <= |dbs| <= MAX_DBS
    && (forall i | 0 <= i < |dbs| :: ValidSpec(dbs[i]))
    && UniqueDbs(dbs)
  }

  /** One entry of `dbs` as it arrives: a bare name, an object, or something else. */
  datatype DbInput = Bare(name: string) | Object(nameItem: Item, tables: TablesInput) | OtherInput

  datatype RequestError = WrongCount | NotADb | BadName | BadTables(cause: TablesError) | RepeatedDb

  predicate AcceptsDb(d: DbInput) {
    match d
    case Bare(n) => ValidName(n)
    case Object(n, v) => n.Str? && ValidName(n.s) && AcceptsTables(v)
    case OtherInput => false
  }

  function NameGiven(d: DbInput): string {
    match d
    case Bare(n) => n
    case Object(Str(n), _) => n
    case _ => ""
  }

  /** The tables asked for; none where the whole database is. */
  function TablesAsked(d: DbInput): seq<string>
    requires AcceptsDb(d)
  {
    if d.Bare? || d.tables.Null? || d.tables == Text("all") then [] else Texts(AsItems(d.tables))
  }

  predicate NamesDiffer(inputs: seq<DbInput>) {
    forall i, j | 0 <= i < j < |inputs| :: NameGiven(inputs[i]) != NameGiven(inputs[j])
  }

  method ValidateDb(d: DbInput) returns (r: Result<DBSpec, RequestError>)
    ensures r.Success? <==> AcceptsDb(d)
    ensures r.Success? ==>
      ValidSpec(r.value) && r.value.name == NameGiven(d) && CloneTables(r.value) == TablesAsked(d)
  {
    match d
    case OtherInput => return Failure(NotADb);
    case Bare(n) =>
      r := if ValidName(n) then Success(DBSpec(n, Omitted)) else Failure(BadName);
    case Object(n, v) =>
      if n.NotStr? || !ValidName(n.s) { return Failure(BadName); }
      var t := NormaliseTables(v);
      r := if t.Success? then Success(DBSpec(n.s, t.value)) else Failure(BadTables(t.error));
  }

  /** The `dbs` of a request, from what arrives to what the create works with: accepted exactly if there are
      one to ten of them, each acceptable, with different names; and then every clone is asked for exactly
      the tables given, a full dump exactly where the whole database was. */
  method ValidateRequest(inputs: seq<DbInput>) returns (r: Result<seq<DBSpec>, RequestError>)
    ensures r.Success? <==>
      1 <= |inputs| <= 10 && (forall i | 0 <= i < |inputs| :: AcceptsDb(inputs[i])) && NamesDiffer(inputs)
    ensures r.Success? ==>
      && ValidRequest(r.value) && |r.value| == |inputs|
      && forall i | 0 <= i < |inputs| ::
           && r.value[i].name == NameGiven(inputs[i])
           && (inputs[i] == Bare(r.value[i].name) || (inputs[i].Object? && inputs[i].nameItem == Str(r.value[i].name)))
           && CloneTables(r.value[i]) == TablesAsked(inputs[i])
           && (CloneTables(r.value[i]) == [] <==> IsFull(r.value[i]))
  {
    if !(1 <= |inputs| <= MAX_DBS) { return Failure(WrongCount); }
    var out: seq<DBSpec> := [];
    for k := 0 to |inputs|
      invariant |out| == k
      invariant forall i | 0 <= i < k ::
        && AcceptsDb(inputs[i]) && ValidSpec(out[i])
        && out[i].name == NameGiven(inputs[i]) && CloneTables(out[i]) == TablesAsked(inputs[i])
    {
      var one := ValidateDb(inputs[k]);
      if one.Failure? { return Failure(one.error); }
      out := out + [one.value];
    }
    SizesTellDuplicates(Names(out));
    assert Distinct(Names(out)) <==> NamesDiffer(inputs) by {
      assert forall i | 0 <= i < |inputs| :: Names(out)[i] == NameGiven(inputs[i]);
    }
    if !UniqueDbs(out) { return Failure(RepeatedDb); }
    return Success(out);
  }

  // ---- users ----

  predicate HexSuffix(h: string) {
    |h| == 8 && forall i | 0 <= i < |h| :: '0' <= h[i] <= '9' || 'a' <= h[i] <= 'f'
  }

  function UserName(db: string, suffix: string): string {
    "u_" + db + "_" + suffix
  }

  /** Underscores in database names do not confuse users: the suffix has a fixed length. */
  lemma UserNameInjective(a: string, g: string, b: string, h: string)
    requires HexSuffix(g) && HexSuffix(h) && UserName(a, g) == UserName(b, h)
    ensures a == b && g == h
  {
    var u := UserName(a, g);
    assert |a| == |b|;
    assert u[2..2 + |a|] == a && u[2..2 + |b|] == b;
    assert u[|u| - 8..] == g && u[|u| - 8..] == h;
  }

  /** The loop that draws a user and password per database and records the matching grant. */
  method BuildCreds(dbs: seq<DBSpec>, suffixes: seq<string>, passwords: seq<string>)
    returns (creds: seq<DbCred>, grants: seq<Grant>)
    requires ValidRequest(dbs)
    requires |suffixes| == |passwords| == |dbs| && forall i | 0 <= i < |suffixes| :: HexSuffix(suffixes[i])
    ensures |creds| == |grants| == |dbs|
    ensures forall i | 0 <= i < |dbs| ::
      && creds[i] == DbCred(dbs[i].name, "u_" + dbs[i].name + "_" + suffixes[i], passwords[i], TableList(dbs[i]))
      && grants[i] == Grant(creds[i].name, creds[i].user, creds[i].password)
    ensures forall i, j | 0 <= i < j < |dbs| :: creds[i].name != creds[j].name && creds[i].user != creds[j].user
  {
    creds, grants := [], [];
    for k := 0 to |dbs|
      invariant |creds| == |grants| == k
      invariant forall i | 0 <= i < k ::
        && creds[i] == DbCred(dbs[i].name, UserName(dbs[i].name, suffixes[i]), passwords[i], TableList(dbs[i]))
        && grants[i] == Grant(creds[i].name, creds[i].user, creds[i].password)
    {
      var user := UserName(dbs[k].name, suffixes[k]);
      creds := creds + [DbCred(dbs[k].name, user, passwords[k], TableList(dbs[k]))];
      grants := grants + [Grant(dbs[k].name, user, passwords[k])];
    }
    SizesTellDuplicates(Names(dbs));
    forall i, j | 0 <= i < j < |dbs| ensures creds[i].name != creds[j].name && creds[i].user != creds[j].user {
      assert Names(dbs)[i] != Names(dbs)[j];
      if creds[i].user == creds[j].user {
        UserNameInjective(dbs[i].name, suffixes[i], dbs[j].name, suffixes[j]);
      }
    }
  }
}
