/**
 * The build script (`build.rs`): the short and long version texts written for the binary
 * from git's commit hash and date, the `Info` cache that runs each git query at most once,
 * and the version rewrite for nightly builds.
 */
module BuildScript {
  import opened Wrappers
  import opened RustStr
  import opened Process

  // ---------------------------------------------------------------------------
  // Git queries

  /**
   * What git answers at one moment: the raw standard output of `git show` for the short
   * hash, the long hash and the date (`None` when git cannot be run), and the exit status
   * of `git diff-index --quiet HEAD`.
   */
  datatype GitAnswers = GitAnswers(
    shortHash: Option<string>,
    longHash: Option<string>,
    date: Option<string>,
    diffIndex: Option<ExitStatus>)

  /** `command_stdout`: nothing when the command cannot run, else its output trimmed. */
  function CommandStdout(raw: Option<string>): Option<string> {
    match raw
    case None => None
    case Some(out) => Some(Trim(out))
  }

  /** `is_dirty`: the tree is dirty when `diff-index` ran and did not succeed. */
  function IsDirty(status: Option<ExitStatus>): (r: Option<bool>)
    ensures r == Some(true) <==> status.Some? && !status.value.Success()
    ensures r.None? <==> status.None?
  {
    match status
    case None => None
    case Some(s) => Some(!s.Success())
  }

  const DirtySuffix: string := "-dirty"

  /** The hash as `commit_hash_short` and `commit_hash_long` return it. */
  function MarkDirty(hash: Option<string>, dirty: Option<bool>): Option<string> {
    if dirty == Some(true) && hash.Some? then Some(hash.value + DirtySuffix) else hash
  }

  /** The three cached queries. */
  datatype Key = HashShort | HashLong | Date

  /** What the producer behind `key` returns when git answers `git`. */
  function Produce(key: Key, git: GitAnswers): Option<string> {
    match key
    case HashShort => MarkDirty(CommandStdout(git.shortHash), IsDirty(git.diffIndex))
    case HashLong => MarkDirty(CommandStdout(git.longHash), IsDirty(git.diffIndex))
    case Date => CommandStdout(git.date)
  }

  /**
   * `command_stdout` trims: its text has no whitespace at either end and trimming it
   * again changes nothing; it is absent exactly when the command could not run.
   */
  lemma CommandStdoutTrimmed(raw: Option<string>)
    ensures CommandStdout(raw).None? <==> raw.None?
    ensures CommandStdout(raw).Some? ==>
      var t := CommandStdout(raw).value;
      Trim(t) == t && (t == [] || (!IsWhitespace(t[0]) && !IsWhitespace(t[|t| - 1])))
  {
    if raw.Some? {
      TrimEnds(raw.value);
    }
  }

  /**
   * The `-dirty` mark is added exactly when `diff-index` reported a dirty tree and there
   * is a hash; the clean hash can always be read back.
   */
  lemma DirtyMarkIff(hash: Option<string>, dirty: Option<bool>)
    ensures MarkDirty(hash, dirty) != hash <==> (dirty == Some(true) && hash.Some?)
    ensures MarkDirty(hash, dirty).Some? <==> hash.Some?
    ensures MarkDirty(hash, dirty) != hash ==>
      var m := MarkDirty(hash, dirty).value;
      |m| >= |DirtySuffix| && m[..|m| - |DirtySuffix|] == hash.value && m[|m| - |DirtySuffix|..] == DirtySuffix
  {
    if dirty == Some(true) && hash.Some? {
      var m := hash.value + DirtySuffix;
      assert |m| > |hash.value|;
      assert m[..|m| - |DirtySuffix|] == hash.value;
    }
  }

  // ---------------------------------------------------------------------------
  // The `Info` cache

  /**
   * A cache holds exactly the queries run, each with the answer it got when it ran,
   * and no query has run twice.
   */
  predicate Consistent(answer: (Key, nat) -> Option<string>, cache: map<Key, Option<string>>, runs: seq<Key>) {
    && (forall i :: 0 <= i < |runs| ==> runs[i] in cache && cache[runs[i]] == answer(runs[i], i))
    && (forall k :: k in cache ==> k in runs)
    && (forall i, j :: 0 <= i < j < |runs| ==> runs[i] != runs[j])
  }

  /** A map of queries run so far with their answers: no query is run twice. */
  class Info {
    /** What the producer of a key answers when it is the n-th query run. */
    const produce: (Key, nat) -> Option<string>
    var cache: map<Key, Option<string>>
    /** The queries run, in order. */
    var runs: seq<Key>

    predicate Valid()
      reads this
    {
      Consistent(produce, cache, runs)
    }

    /** `Info::new`. */
    constructor (produce: (Key, nat) -> Option<string>)
      ensures Valid() && this.produce == produce && cache == map[] && runs == []
    {
      this.produce := produce;
      cache := map[];
      runs := [];
    }

    /**
     * `entry(key).or_insert_with(producer)`: a stored answer is returned as it is, even a
     * stored `None`; otherwise the producer runs once and its answer is stored.
     */
    method Lookup(key: Key) returns (r: Option<string>)
      requires Valid()
      modifies this
      ensures Valid()
      ensures key in cache && r == cache[key]
      ensures key in old(cache) ==> cache == old(cache) && runs == old(runs)
      ensures key !in old(cache) ==>
        r == produce(key, |old(runs)|) && cache == old(cache)[key := r] && runs == old(runs) + [key]
      ensures runs == Ask(old(runs), key)
    {
      if key in cache {
        r := cache[key];
      } else {
        r := produce(key, |runs|);
        cache := cache[key := r];
        runs := runs + [key];
      }
    }

    method CommitHashShort() returns (r: Option<string>)
      requires Valid()
      modifies this
      ensures Valid()
      ensures HashShort in cache && r == cache[HashShort]
      ensures HashShort in old(cache) ==> cache == old(cache) && runs == old(runs)
      ensures HashShort !in old(cache) ==>
        r == produce(HashShort, |old(runs)|) && cache == old(cache)[HashShort := r] && runs == old(runs) + [HashShort]
      ensures runs == Ask(old(runs), HashShort)
    {
      r := Lookup(HashShort);
    }

    method CommitHashLong() returns (r: Option<string>)
      requires Valid()
      modifies this
      ensures Valid()
      ensures HashLong in cache && r == cache[HashLong]
      ensures HashLong in old(cache) ==> cache == old(cache) && runs == old(runs)
      ensures HashLong !in old(cache) ==>
        r == produce(HashLong, |old(runs)|) && cache == old(cache)[HashLong := r] && runs == old(runs) + [HashLong]
      ensures runs == Ask(old(runs), HashLong)
    {
      r := Lookup(HashLong);
    }

    method CommitDate() returns (r: Option<string>)
      requires Valid()
      modifies this
      ensures Valid()
      ensures Date in cache && r == cache[Date]
      ensures Date in old(cache) ==> cache == old(cache) && runs == old(runs)
      ensures Date !in old(cache) ==>
        r == produce(Date, |old(runs)|) && cache == old(cache)[Date := r] && runs == old(runs) + [Date]
      ensures runs == Ask(old(runs), Date)
    {
      r := Lookup(Date);
    }
  }

  /** The run log after asking for `key`: a key already run is not run again. */
  function Ask(runs: seq<Key>, key: Key): seq<Key> {
    if key in runs then runs else runs + [key]
  }

  /** The run log after `version_short`, which asks for the date only when it got a short hash. */
  function ShortRuns(runs: seq<Key>, hash: Option<string>): seq<Key> {
    if hash.Some? then Ask(Ask(runs, HashShort), Date) else Ask(runs, HashShort)
  }

  // ---------------------------------------------------------------------------
  // Version texts

  /** The short version: the package version, with hash and date in parentheses when both are known. */
  function ShortText(version: string, hash: Option<string>, date: Option<string>): string {
    if hash.Some? && date.Some? then version + (" (" + hash.value + " " + date.value + ")") else version
  }

  function HashLine(hash: Option<string>): seq<string> {
    if hash.Some? then ["commit-hash: " + hash.value] else []
  }

  function DateLine(date: Option<string>): seq<string> {
    if date.Some? then ["commit-date: " + date.value] else []
  }

  /** The long version's lines. */
  function LongLines(short: string, name: string, version: string, hash: Option<string>, date: Option<string>): seq<string> {
    [short, "binary: " + name, "release: " + version] + HashLine(hash) + DateLine(date)
  }

  /** The long version: the short one, the binary's name and release, then the hash and the date when known. */
  function LongText(short: string, name: string, version: string, hash: Option<string>, date: Option<string>): string {
    Join(LongLines(short, name, version, hash, date), '\n')
  }

  /** `version_short`: asks for the date only when there is a hash. */
  method VersionShort(info: Info, version: string) returns (v: string)
    requires info.Valid()
    modifies info
    ensures info.Valid()
    ensures HashShort in info.cache
    ensures info.cache[HashShort].Some? ==> Date in info.cache
    ensures info.runs == ShortRuns(old(info.runs), info.cache[HashShort])
    ensures forall k :: k in old(info.cache) ==> k in info.cache && info.cache[k] == old(info.cache)[k]
    ensures v == ShortText(version, info.cache[HashShort], if Date in info.cache then info.cache[Date] else None)
  {
    v := version;
    var hash := info.CommitHashShort();
    if hash.Some? {
      var extra := " (";
      extra := extra + hash.value;
      extra := extra + " ";
      var date := info.CommitDate();
      if date.Some? {
        extra := extra + date.value;
        extra := extra + ")";
        v := v + extra;
      }
    }
  }

  /** `version_long`: the short version first, then the long hash, then the date. */
  method VersionLong(info: Info, name: string, version: string) returns (v: string)
    requires info.Valid()
    modifies info
    ensures info.Valid()
    ensures HashShort in info.cache && HashLong in info.cache && Date in info.cache
    ensures info.runs == Ask(Ask(ShortRuns(old(info.runs), info.cache[HashShort]), HashLong), Date)
    ensures forall k :: k in old(info.cache) ==> k in info.cache && info.cache[k] == old(info.cache)[k]
    ensures v == LongText(ShortText(version, info.cache[HashShort], info.cache[Date]), name, version,
                          info.cache[HashLong], info.cache[Date])
  {
    v := VersionShort(info, version);
    ghost var short := v;
    v := v + "\nbinary: ";
    v := v + name;
    v := v + "\nrelease: ";
    v := v + version;
    var hash := info.CommitHashLong();
    if hash.Some? {
      v := v + "\ncommit-hash: ";
      v := v + hash.value;
    }
    var date := info.CommitDate();
    if date.Some? {
      v := v + "\ncommit-date: ";
      v := v + date.value;
    }
    LongBuilt(short, name, version, hash, date);
  }

  /** The text `version_long` pushes together is the long version. */
  lemma LongBuilt(short: string, name: string, version: string, hash: Option<string>, date: Option<string>)
    ensures var head := short + "\nbinary: " + name + "\nrelease: " + version;
      var withHash := if hash.Some? then head + "\ncommit-hash: " + hash.value else head;
      (if date.Some? then withHash + "\ncommit-date: " + date.value else withHash)
        == LongText(short, name, version, hash, date)
  {
    var lines := [short];
    var text := short;
    assert "\n" + "binary: " == "\nbinary: ";
    PushLine(lines, "binary: ", name);
    lines, text := lines + ["binary: " + name], text + "\nbinary: " + name;
    assert text == Join(lines, '\n');
    assert "\n" + "release: " == "\nrelease: ";
    PushLine(lines, "release: ", version);
    lines, text := lines + ["release: " + version], text + "\nrelease: " + version;
    assert text == Join(lines, '\n');
    if hash.Some? {
      assert "\n" + "commit-hash: " == "\ncommit-hash: ";
      PushLine(lines, "commit-hash: ", hash.value);
      text := text + "\ncommit-hash: " + hash.value;
    } else {
      assert lines + HashLine(hash) == lines;
    }
    lines := lines + HashLine(hash);
    assert text == Join(lines, '\n');
    if date.Some? {
      assert "\n" + "commit-date: " == "\ncommit-date: ";
      PushLine(lines, "commit-date: ", date.value);
      text := text + "\ncommit-date: " + date.value;
    } else {
      assert lines + DateLine(date) == lines;
    }
    assert lines + DateLine(date) == LongLines(short, name, version, hash, date);
    assert text == Join(lines + DateLine(date), '\n');
  }

  /** Pushing a newline, a tag and a value onto a joined text adds one line. */
  lemma PushLine(lines: seq<string>, tag: string, x: string)
    requires |lines| >= 1
    ensures Join(lines, '\n') + ("\n" + tag) + x == Join(lines + [tag + x], '\n')
  {
    JoinAppend(lines, [tag + x], '\n');
    assert Join([tag + x], '\n') == tag + x;
    var j := Join(lines, '\n');
    AppendAssoc(j, "\n" + tag, x);
    AppendAssoc("\n", tag, x);
    AppendAssoc(j, "\n", tag + x);
  }

  /** The package version a nightly build of `date` carries: the version up to its first `-`, then `-nightly.` and the date. */
  function Nightly(version: string, date: string): string {
    Split(version, '-')[0] + "-nightly." + date
  }

  /**
   * The versions the build produces when `answer(key, n)` is what the query for `key`
   * returns as the n-th query run: the short hash is asked first; with a hash the date
   * follows, then the long hash; without one the long hash comes first and the date
   * after it. Each query is asked once.
   */
  function Versions(answer: (Key, nat) -> Option<string>, name: string, version: string): (string, string) {
    var hash := answer(HashShort, 0);
    var date := if hash.Some? then answer(Date, 1) else answer(Date, 2);
    var long := if hash.Some? then answer(HashLong, 2) else answer(HashLong, 1);
    var short := ShortText(version, hash, date);
    (short, LongText(short, name, version, long, date))
  }

  /** The queries' answers when git answers `git(n)` to the n-th query run. */
  function GitAnswer(git: nat -> GitAnswers): (Key, nat) -> Option<string> {
    (k: Key, n: nat) => Produce(k, git(n))
  }

  /**
   * The build script's `main`: writes the short and the long version with one shared
   * cache, and with `NIGHTLY_BUILD` set rewrites the package version.
   */
  method GenerateVersions(git: nat -> GitAnswers, name: string, version: string, nightly: Option<string>)
    returns (short: string, long: string, rewritten: Option<string>)
    ensures (short, long) == Versions(GitAnswer(git), name, version)
    ensures rewritten == if nightly.Some? then Some(Nightly(version, nightly.value)) else None
  {
    var info := new Info(GitAnswer(git));
    short := VersionShort(info, version);
    long := VersionLong(info, name, version);
    FirstRuns(GitAnswer(git), info.cache, info.runs);
    rewritten := None;
    if nightly.Some? {
      rewritten := Some(Split(version, '-')[0] + "-nightly." + nightly.value);
    }
  }

  /** From an empty cache, `version_short` then `version_long` run each query once, in the order `Versions` uses. */
  lemma FirstRuns(answer: (Key, nat) -> Option<string>, cache: map<Key, Option<string>>, runs: seq<Key>)
    requires Consistent(answer, cache, runs) && HashShort in cache
    requires runs == Ask(Ask(ShortRuns([], cache[HashShort]), HashLong), Date)
    ensures HashShort in cache && HashLong in cache && Date in cache
    ensures cache[HashShort] == answer(HashShort, 0)
    ensures cache[Date] == if cache[HashShort].Some? then answer(Date, 1) else answer(Date, 2)
    ensures cache[HashLong] == if cache[HashShort].Some? then answer(HashLong, 2) else answer(HashLong, 1)
  {
    var first := ShortRuns([], cache[HashShort]);
    if cache[HashShort].Some? {
      assert first == [HashShort, Date];
      assert runs == [HashShort, Date, HashLong];
      assert runs[1] == Date && runs[2] == HashLong;
    } else {
      assert first == [HashShort];
      assert runs == [HashShort, HashLong, Date];
      assert runs[1] == HashLong && runs[2] == Date;
    }
    assert runs[0] == HashShort;
  }

  // ---------------------------------------------------------------------------
  // Properties of the texts

  /**
   * The short version starts with the package version and differs from it exactly when
   * both the hash and the date are known; a hash without a date adds nothing.
   */
  lemma ShortTextCases(version: string, hash: Option<string>, date: Option<string>)
    ensures StartsWith(ShortText(version, hash, date), version)
    ensures ShortText(version, hash, date) != version <==> (hash.Some? && date.Some?)
    ensures hash.Some? && date.Some? ==>
      ShortText(version, hash, date)[|version|..] == " (" + hash.value + " " + date.value + ")"
  {
    var t := ShortText(version, hash, date);
    assert t[..|version|] == version;
    if hash.Some? && date.Some? {
      assert |t| > |version|;
    }
  }

  /**
   * Reading the long version back line by line: the short version, the binary's name,
   * the release, then a hash line only when the hash is known and a date line only when
   * the date is known, in that order (all pieces free of newlines).
   */
  lemma LongTextLines(short: string, name: string, version: string, hash: Option<string>, date: Option<string>)
    requires Free(short, '\n') && Free(name, '\n') && Free(version, '\n')
    requires hash.Some? ==> Free(hash.value, '\n')
    requires date.Some? ==> Free(date.value, '\n')
    ensures Split(LongText(short, name, version, hash, date), '\n') == LongLines(short, name, version, hash, date)
    ensures |Split(LongText(short, name, version, hash, date), '\n')| ==
      3 + (if hash.Some? then 1 else 0) + (if date.Some? then 1 else 0)
  {
    var lines := LongLines(short, name, version, hash, date);
    forall k | 0 <= k < |lines|
      ensures Free(lines[k], '\n')
    {
    }
    SplitJoin(lines, '\n');
  }

  /**
   * Both files agree on the short version, because the cache answers the second
   * `version_short` with what the first one saw: the long text's first line is the
   * short text, and a date in the short text is the one on the `commit-date` line.
   */
  lemma VersionsAgree(answer: (Key, nat) -> Option<string>, name: string, version: string)
    requires Free(version, '\n') && Free(name, '\n')
    requires forall k, n :: answer(k, n).Some? ==> Free(answer(k, n).value, '\n')
    ensures Split(Versions(answer, name, version).1, '\n')[0] == Versions(answer, name, version).0
    ensures Versions(answer, name, version).0 != version ==>
      Split(Versions(answer, name, version).1, '\n')[|Split(Versions(answer, name, version).1, '\n')| - 1]
        == "commit-date: " + answer(Date, 1).value
  {
    var hash := answer(HashShort, 0);
    var date := if hash.Some? then answer(Date, 1) else answer(Date, 2);
    var long := if hash.Some? then answer(HashLong, 2) else answer(HashLong, 1);
    var short := ShortText(version, hash, date);
    ShortTextCases(version, hash, date);
    assert Free(short, '\n') by {
      if hash.Some? && date.Some? {
        assert short == version + " (" + hash.value + " " + date.value + ")";
      }
    }
    LongTextLines(short, name, version, long, date);
  }

  /**
   * The nightly version keeps the release part of the version, the text before its first
   * `-`; building it again from a nightly version only replaces the date.
   */
  lemma NightlyShape(version: string, date: string)
    ensures var base := Split(version, '-')[0];
      && StartsWith(version, base) && Free(base, '-')
      && (base == version || version[|base|] == '-')
      && Nightly(version, date) == base + "-nightly." + date
  {
    SplitFirst(version, '-');
  }

  lemma {:induction false} NightlyAgain(version: string, date: string, later: string)
    ensures Nightly(Nightly(version, date), later) == Nightly(version, later)
  {
    var base := Split(version, '-')[0];
    SplitFirst(version, '-');
    assert Nightly(version, date) == base + ['-'] + ("nightly." + date);
    SplitAround(base, "nightly." + date, '-');
    SplitFree(base, '-');
  }
}
