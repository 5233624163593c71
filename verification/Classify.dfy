/** How a failed clone is reported: the message `clone_db` builds and the category it is given. */
module Classify {
  import opened Wrappers

  datatype Category = Validation | Ssh | Dump | Container | Restore | GrantFailed | Port | Internal

  datatype Exc =
    | TunnelError(msg: string)
    | MySQLOpsError(msg: string)
    | DockerOpsError(msg: string)
    | OtherError(msg: string)

  // ---- substrings ----

  predicate OccursAt(p: string, s: string, i: nat) {
    i + |p| <= |s| && s[i..i + |p|] == p
  }

  predicate Contains(s: string, p: string) {
    exists i: nat | i <= |s| :: OccursAt(p, s, i)
  }

  function LowerChar(c: char): char {
    if 'A' <= c <= 'Z' then (c as int + 32) as char else c
  }

  function Lower(s: string): (r: string)
    ensures |r| == |s|
  {
    seq(|s|, i requires 0 <= i < |s| => LowerChar(s[i]))
  }

  lemma LowerConcat(a: string, b: string)
    ensures Lower(a + b) == Lower(a) + Lower(b)
  {
  }

  const MYSQLDUMP := "mysqldump"

  /** Case-insensitively, as the classifier looks for it. */
  predicate Mentions(s: string, p: string) {
    Contains(Lower(s), p)
  }

  /** `_classify_failure`, the category part. */
  function Categorise(e: Exc): Category {
    match e
    case TunnelError(_) => Ssh
    case MySQLOpsError(m) => if Mentions(m, MYSQLDUMP) then Dump else Restore
    case DockerOpsError(m) => if Mentions(m, "port") then Port else Container
    case OtherError(_) => Internal
  }

  /** `p` stands in `s` at `i`, in either case of each letter. */
  predicate SaysAt(s: string, p: string, i: nat) {
    i + |p| <= |s| && forall j | 0 <= j < |p| ::
      s[i + j] == p[j] || ('A' <= s[i + j] <= 'Z' && s[i + j] as int + 32 == p[j] as int)
  }

  lemma MentionsExactly(s: string, p: string)
    requires forall j | 0 <= j < |p| :: 'a' <= p[j] <= 'z'
    ensures Mentions(s, p) <==> exists i: nat :: SaysAt(s, p, i)
  {
    if Mentions(s, p) {
      var i: nat :| i <= |Lower(s)| && OccursAt(p, Lower(s), i);
      forall j | 0 <= j < |p|
        ensures s[i + j] == p[j] || ('A' <= s[i + j] <= 'Z' && s[i + j] as int + 32 == p[j] as int)
      {
        assert Lower(s)[i..i + |p|][j] == LowerChar(s[i + j]);
      }
      assert SaysAt(s, p, i);
    }
    if i: nat :| SaysAt(s, p, i) {
      assert Lower(s)[i..i + |p|] == p;
      assert OccursAt(p, Lower(s), i);
    }
  }

  /** Which failures each category stands for, in any mix of cases. */
  lemma CategoryExactly(e: Exc)
    ensures Categorise(e) == Ssh <==> e.TunnelError?
    ensures Categorise(e) == Internal <==> e.OtherError?
    ensures Categorise(e) == Dump <==> e.MySQLOpsError? && exists i: nat :: SaysAt(e.msg, "mysqldump", i)
    ensures Categorise(e) == Restore <==> e.MySQLOpsError? && !exists i: nat :: SaysAt(e.msg, "mysqldump", i)
    ensures Categorise(e) == Port <==> e.DockerOpsError? && exists i: nat :: SaysAt(e.msg, "port", i)
    ensures Categorise(e) == Container <==> e.DockerOpsError? && !exists i: nat :: SaysAt(e.msg, "port", i)
  {
    MentionsExactly(e.msg, "mysqldump");
    MentionsExactly(e.msg, "port");
  }

  // ---- the message of `clone_db` ----

  /** A process that has exited: its code, its text, and the code as it is printed. */
  datatype Exit = Exit(rc: int, printed: string, text: string)

  predicate Printed(s: string) {
    s != [] && forall i | 0 <= i < |s| :: '0' <= s[i] <= '9' || s[i] == '-'
  }

  function RestorePart(db: string, x: Exit): string {
    "mysql restore " + db + " failed (rc=" + x.printed + "): " + x.text
  }

  function DumpPart(db: string, tables: string, x: Exit): string {
    MYSQLDUMP + " " + db + tables + " failed (rc=" + x.printed + "): " + x.text
  }

  function Join(parts: seq<string>): string {
    if parts == [] then "" else if |parts| == 1 then parts[0] else parts[0] + "; " + Join(parts[1..])
  }

  /** Whichever side failed; if both did, the restore first. */
  function Report(sourceDb: string, targetDb: string, tables: string, restore: Exit, dump: Exit): string {
    if dump.rc == 0 then RestorePart(targetDb, restore)
    else if restore.rc == 0 then DumpPart(sourceDb, tables, dump)
    else RestorePart(targetDb, restore) + "; " + DumpPart(sourceDb, tables, dump)
  }

  // ---- which category it gets ----

  lemma ContainsPrefix(p: string, rest: string)
    ensures Contains(p + rest, p)
  {
    assert OccursAt(p, p + rest, 0);
  }

  lemma ContainsLater(a: string, b: string, p: string)
    requires Contains(b, p)
    ensures Contains(a + b, p)
  {
    var i: nat :| i <= |b| && OccursAt(p, b, i);
    assert (a + b)[|a| + i..|a| + i + |p|] == b[i..i + |p|];
    assert OccursAt(p, a + b, |a| + i);
  }

  lemma ContainsEarlier(a: string, b: string, p: string)
    requires Contains(a, p)
    ensures Contains(a + b, p)
  {
    var i: nat :| i <= |a| && OccursAt(p, a, i);
    assert (a + b)[i..i + |p|] == a[i..i + |p|];
    assert OccursAt(p, a + b, i);
  }

  lemma SeparatorInside(s: string, at: nat, p: string, i: nat)
    requires OccursAt(p, s, i) && i <= at < i + |p|
    ensures s[at] in p
  {
    assert s[i..i + |p|][at - i] == s[at];
  }

  /** A word without the separator cannot straddle it. */
  lemma NoStraddle(a: string, sep: char, b: string, p: string)
    requires p != [] && sep !in p
    ensures Contains(a + [sep] + b, p) <==> Contains(a, p) || Contains(b, p)
  {
    var s := a + [sep] + b;
    if Contains(s, p) {
      var i: nat :| i <= |s| && OccursAt(p, s, i);
      if i + |p| <= |a| {
        assert a[i..i + |p|] == p;
        assert OccursAt(p, a, i);
      } else if i <= |a| {
        SeparatorInside(s, |a|, p, i);
        assert false;
      } else {
        var j: nat := i - |a| - 1;
        assert b[j..j + |p|] == p;
        assert OccursAt(p, b, j);
      }
    }
    if Contains(a, p) {
      ContainsEarlier(a, [sep] + b, p);
      assert a + ([sep] + b) == s;
    }
    if Contains(b, p) {
      ContainsLater(a + [sep], b, p);
    }
  }

  /** A word with a letter the text lacks does not occur in it. */
  lemma LacksLetter(s: string, p: string, k: nat)
    requires k < |p| && p[k] !in s
    ensures !Contains(s, p)
  {
    forall i: nat | i <= |s| ensures !OccursAt(p, s, i) {
      if i + |p| <= |s| {
        assert s[i..i + |p|][k] == s[i + k];
      }
    }
  }

  lemma MentionsSpaced(a: string, b: string, p: string)
    requires p != [] && ' ' !in p
    ensures Mentions(a + " " + b, p) <==> Mentions(a, p) || Mentions(b, p)
  {
    LowerConcat(a + " ", b);
    LowerConcat(a, " ");
    assert Lower(" ") == [' '];
    NoStraddle(Lower(a), ' ', Lower(b), p);
  }

  /** No word of the fixed text mentions mysqldump. */
  lemma FixedWords(printed: string)
    requires Printed(printed)
    ensures !Mentions("mysql", MYSQLDUMP) && !Mentions("restore", MYSQLDUMP) && !Mentions("failed", MYSQLDUMP)
    ensures !Mentions("(rc=" + printed + "):", MYSQLDUMP)
  {
    var code := "(rc=" + printed + "):";
    LacksLetter(Lower("mysql"), MYSQLDUMP, 5);
    LacksLetter(Lower("restore"), MYSQLDUMP, 0);
    LacksLetter(Lower("failed"), MYSQLDUMP, 0);
    forall i | 0 <= i < |code| ensures Lower(code)[i] != 'm' {
      assert code[i] != 'm' && code[i] != 'M';
    }
    LacksLetter(Lower(code), MYSQLDUMP, 0);
  }

  /** A restore-only report mentions mysqldump exactly when the database name or the restore's own text does. */
  lemma RestorePartMentions(db: string, x: Exit)
    requires Printed(x.printed)
    ensures Mentions(RestorePart(db, x), MYSQLDUMP) <==> Mentions(db, MYSQLDUMP) || Mentions(x.text, MYSQLDUMP)
  {
    hide Mentions;
    var code := "(rc=" + x.printed + "):";
    var w3 := code + " " + x.text;
    var w2 := "failed" + " " + w3;
    var w1 := db + " " + w2;
    var w0 := "restore" + " " + w1;
    assert RestorePart(db, x) == "mysql" + " " + w0;
    FixedWords(x.printed);
    MentionsSpaced("mysql", w0, MYSQLDUMP);
    MentionsSpaced("restore", w1, MYSQLDUMP);
    MentionsSpaced(db, w2, MYSQLDUMP);
    MentionsSpaced("failed", w3, MYSQLDUMP);
    MentionsSpaced(code, x.text, MYSQLDUMP);
  }

  lemma DumpPartMentions(db: string, tables: string, x: Exit)
    ensures Mentions(DumpPart(db, tables, x), MYSQLDUMP)
  {
    var rest := " " + db + tables + " failed (rc=" + x.printed + "): " + x.text;
    assert DumpPart(db, tables, x) == MYSQLDUMP + rest;
    LowerConcat(MYSQLDUMP, rest);
    assert Lower(MYSQLDUMP) == MYSQLDUMP;
    ContainsPrefix(MYSQLDUMP, Lower(rest));
  }

  /** The category of a failed clone whose two exit codes are known: "dump" whenever the dump failed, even
      with the restore; otherwise "restore", unless the name or the restore's text itself says mysqldump. */
  lemma CloneCategory(sourceDb: string, targetDb: string, tables: string, restore: Exit, dump: Exit)
    requires Printed(restore.printed) && (restore.rc != 0 || dump.rc != 0)
    ensures Categorise(MySQLOpsError(Report(sourceDb, targetDb, tables, restore, dump))) ==
        if dump.rc != 0 || Mentions(targetDb, MYSQLDUMP) || Mentions(restore.text, MYSQLDUMP) then Dump else Restore
  {
    if dump.rc == 0 {
      RestorePartMentions(targetDb, restore);
    } else {
      DumpPartMentions(sourceDb, tables, dump);
      if restore.rc != 0 {
        var head := RestorePart(targetDb, restore) + "; ";
        LowerConcat(head, DumpPart(sourceDb, tables, dump));
        ContainsLater(Lower(head), Lower(DumpPart(sourceDb, tables, dump)), MYSQLDUMP);
      }
    }
  }

  /** The two-sided report, and the category it is classified under: "dump" whenever the dump failed, even
      with the restore; otherwise "restore", unless the database name or the restore's own text says
      mysqldump. `tables` is the printed table list of a partial dump, or empty. */
  method CloneReport(sourceDb: string, targetDb: string, tables: string, restore: Exit, dump: Exit)
    returns (r: Option<Exc>)
    requires Printed(restore.printed)
    ensures r.None? <==> restore.rc == 0 && dump.rc == 0
    ensures r.Some? ==> r.value == MySQLOpsError(Report(sourceDb, targetDb, tables, restore, dump))
    ensures r.Some? ==>
      var restored := "mysql restore " + targetDb + " failed (rc=" + restore.printed + "): " + restore.text;
      var dumped := "mysqldump" + " " + sourceDb + tables + " failed (rc=" + dump.printed + "): " + dump.text;
      r.value == MySQLOpsError(
        if dump.rc == 0 then restored else if restore.rc == 0 then dumped else restored + "; " + dumped)
    ensures r.Some? ==> (
      Categorise(r.value) == if dump.rc != 0 || Mentions(targetDb, MYSQLDUMP) || Mentions(restore.text, MYSQLDUMP)
                             then Dump else Restore)
  {
    hide Categorise;
    var dumpFailed, restoreFailed := dump.rc != 0, restore.rc != 0;
    if !dumpFailed && !restoreFailed { return None; }
    var parts: seq<string> := [];
    if restoreFailed { parts := parts + [RestorePart(targetDb, restore)]; }
    if dumpFailed { parts := parts + [DumpPart(sourceDb, tables, dump)]; }
    CloneCategory(sourceDb, targetDb, tables, restore, dump);
    assert |parts| == 2 ==> Join(parts) == parts[0] + "; " + Join(parts[1..]) && parts[1..] == [parts[1]];
    return Some(MySQLOpsError(Join(parts)));
  }

  // ---- what is never reported ----

  /** The categories that some failure is given: all but "validation" and "grant". */
  lemma UnusedCategories(c: Category)
    ensures (exists e :: Categorise(e) == c) <==> !c.Validation? && !c.GrantFailed?
  {
    PortWords();
    ContainsPrefix(MYSQLDUMP, "");
    assert Lower(MYSQLDUMP) == MYSQLDUMP && MYSQLDUMP + "" == MYSQLDUMP;
    LacksLetter(Lower(""), MYSQLDUMP, 0);
    LacksLetter(Lower(""), "port", 0);
    assert Categorise(TunnelError("")) == Ssh && Categorise(OtherError("")) == Internal;
    assert Categorise(MySQLOpsError(MYSQLDUMP)) == Dump && Categorise(MySQLOpsError("")) == Restore;
    assert Categorise(DockerOpsError("port=")) == Port && Categorise(DockerOpsError("")) == Container;
  }

  // ---- a container that never becomes healthy ----

  function Word(w: string, rest: string): string {
    w + " " + rest
  }

  lemma WordMentions(w: string, rest: string)
    ensures Mentions(Word(w, rest), "port") <==> Mentions(w, "port") || Mentions(rest, "port")
  {
    MentionsSpaced(w, rest, "port");
  }

  /** The second half of the message: docker's last status, and the port of the last probe, if any ran. */
  function Observed(status: string, probe: Option<string>): string {
    Word("last", Word("docker", Word("status:", Word(status + ";", Word("tcp", Word("probe:",
      if probe.Some? then "port=" + probe.value else "unknown"))))))
  }

  /** What `wait_healthy` raises at its deadline, word by word. */
  function HealthTimeout(uuid: string, seconds: string, status: string, probe: Option<string>): string {
    Word("container", Word("sandbox-" + uuid, Word("did", Word("not", Word("become", Word("ready", Word("in",
      Word(seconds + "s;", Observed(status, probe)))))))))
  }

  predicate UuidText(s: string) {
    forall i | 0 <= i < |s| :: '0' <= s[i] <= '9' || 'a' <= s[i] <= 'f' || s[i] == '-'
  }

  predicate Digits(s: string) {
    forall i | 0 <= i < |s| :: '0' <= s[i] <= '9'
  }

  lemma PortWords()
    ensures !Mentions("container", "port") && !Mentions("did", "port") && !Mentions("not", "port")
    ensures !Mentions("become", "port") && !Mentions("ready", "port") && !Mentions("in", "port")
    ensures !Mentions("last", "port") && !Mentions("docker", "port") && !Mentions("status:", "port")
    ensures !Mentions("tcp", "port") && !Mentions("probe:", "port") && !Mentions("unknown", "port")
    ensures Mentions("port=", "port")
  {
    LacksLetter(Lower("container"), "port", 0);
    LacksLetter(Lower("did"), "port", 0);
    LacksLetter(Lower("not"), "port", 0);
    LacksLetter(Lower("become"), "port", 0);
    LacksLetter(Lower("ready"), "port", 0);
    LacksLetter(Lower("in"), "port", 0);
    LacksLetter(Lower("last"), "port", 0);
    LacksLetter(Lower("docker"), "port", 0);
    LacksLetter(Lower("status:"), "port", 0);
    LacksLetter(Lower("tcp"), "port", 1);
    LacksLetter(Lower("probe:"), "port", 3);
    LacksLetter(Lower("unknown"), "port", 0);
    assert Lower("port=") == "port" + "=";
    ContainsPrefix("port", "=");
  }

  /** The parts that vary, but never with a 'p'. */
  lemma NamesLackPort(uuid: string, seconds: string)
    requires UuidText(uuid) && Digits(seconds)
    ensures !Mentions("sandbox-" + uuid, "port") && !Mentions(seconds + "s;", "port")
  {
    var name, limit := "sandbox-" + uuid, seconds + "s;";
    forall i | 0 <= i < |name| ensures Lower(name)[i] != 'p' {
      assert i >= 8 ==> name[i] == uuid[i - 8];
    }
    forall i | 0 <= i < |limit| ensures Lower(limit)[i] != 'p' {
      assert i < |seconds| ==> limit[i] == seconds[i];
    }
    LacksLetter(Lower(name), "port", 0);
    LacksLetter(Lower(limit), "port", 0);
  }

  lemma BeforeSemicolon(a: string)
    ensures Mentions(a + ";", "port") <==> Mentions(a, "port")
  {
    LowerConcat(a, ";");
    assert Lower(";") == [';'] && Lower(a) + [';'] + [] == Lower(a) + [';'];
    NoStraddle(Lower(a), ';', [], "port");
    LacksLetter([], "port", 0);
  }

  lemma ProbeMentions(v: string)
    ensures Mentions("port=" + v, "port")
  {
    PortWords();
    LowerConcat("port=", v);
    ContainsEarlier(Lower("port="), Lower(v), "port");
  }

  lemma ObservedMentions(status: string, probe: Option<string>)
    ensures Mentions(Observed(status, probe), "port") <==> probe.Some? || Mentions(status, "port")
  {
    hide Mentions, Word;
    var last := if probe.Some? then "port=" + probe.value else "unknown";
    PortWords();
    BeforeSemicolon(status);
    if probe.Some? { ProbeMentions(probe.value); }
    WordMentions("probe:", last);
    WordMentions("tcp", Word("probe:", last));
    WordMentions(status + ";", Word("tcp", Word("probe:", last)));
    WordMentions("status:", Word(status + ";", Word("tcp", Word("probe:", last))));
    WordMentions("docker", Word("status:", Word(status + ";", Word("tcp", Word("probe:", last)))));
    WordMentions("last", Word("docker", Word("status:", Word(status + ";", Word("tcp", Word("probe:", last))))));
  }

  lemma TimeoutMentions(uuid: string, seconds: string, status: string, probe: Option<string>)
    requires UuidText(uuid) && Digits(seconds)
    ensures Mentions(HealthTimeout(uuid, seconds, status, probe), "port") <==> probe.Some? || Mentions(status, "port")
  {
    ObservedMentions(status, probe);
    hide Mentions, Word, Observed;
    PortWords();
    NamesLackPort(uuid, seconds);
    var m := Observed(status, probe);
    WordMentions(seconds + "s;", m);
    m := Word(seconds + "s;", m);
    WordMentions("in", m);
    m := Word("in", m);
    WordMentions("ready", m);
    m := Word("ready", m);
    WordMentions("become", m);
    m := Word("become", m);
    WordMentions("not", m);
    m := Word("not", m);
    WordMentions("did", m);
    m := Word("did", m);
    WordMentions("sandbox-" + uuid, m);
    m := Word("sandbox-" + uuid, m);
    WordMentions("container", m);
  }

  /** A health timeout is reported as "port" exactly if a probe has run or docker's own status says port;
      otherwise as "container". */
  lemma TimeoutCategory(uuid: string, seconds: string, status: string, probe: Option<string>)
    requires UuidText(uuid) && Digits(seconds)
    ensures Categorise(DockerOpsError(HealthTimeout(uuid, seconds, status, probe))) ==
            if probe.Some? || Mentions(status, "port") then Port else Container
  {
    TimeoutMentions(uuid, seconds, status, probe);
  }
}
