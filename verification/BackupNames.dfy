/**
  Names of backup objects and how fetch.sh picks the latest one: `mc find | sort | tail -n 1`
  takes the greatest name in byte order.
*/
module BackupNames {
  import opened Wrappers

  /** Byte order, as `sort` uses it. */
  predicate LexLeq(a: string, b: string)
    decreases |a|
  {
    a == [] || (b != [] && (a[0] < b[0] || (a[0] == b[0] && LexLeq(a[1..], b[1..]))))
  }

  lemma {:induction false} LexTotal(a: string, b: string)
    ensures LexLeq(a, b) || LexLeq(b, a)
    decreases |a|
  {
    if a != [] && b != [] && a[0] == b[0] {
      LexTotal(a[1..], b[1..]);
    }
  }

  lemma {:induction false} LexTrans(a: string, b: string, c: string)
    requires LexLeq(a, b) && LexLeq(b, c)
    ensures LexLeq(a, c)
    decreases |a|
  {
    if a != [] && a[0] == b[0] && b[0] == c[0] {
      LexTrans(a[1..], b[1..], c[1..]);
    }
  }

  lemma {:induction false} LexAntisym(a: string, b: string)
    requires LexLeq(a, b) && LexLeq(b, a)
    ensures a == b
    decreases |a|
  {
    if a != [] {
      LexAntisym(a[1..], b[1..]);
      assert a == [a[0]] + a[1..] && b == [b[0]] + b[1..];
    }
  }

  /** `sort | tail -n 1` over the matching names of a listing, empty when nothing matches. */
  method FindLatest(listing: seq<string>, matches: string -> bool) returns (latest: Option<string>)
    ensures latest.None? <==> forall n :: n in listing ==> !matches(n)
    ensures latest.Some? ==> IsLatest(listing, matches, latest.value)
  {
    latest := None;
    for i := 0 to |listing|
      invariant latest.None? <==> forall n :: n in listing[..i] ==> !matches(n)
      invariant latest.Some? ==> IsLatest(listing[..i], matches, latest.value)
    {
      assert listing[..i + 1] == listing[..i] + [listing[i]];
      if matches(listing[i]) {
        LexTotal(listing[i], listing[i]);
        if latest.None? {
          latest := Some(listing[i]);
        } else {
          LexTotal(latest.value, listing[i]);
          if LexLeq(latest.value, listing[i]) {
            forall n | n in listing[..i] && matches(n) ensures LexLeq(n, listing[i]) {
              LexTrans(n, latest.value, listing[i]);
            }
            latest := Some(listing[i]);
          }
        }
      }
    }
    assert listing[..|listing|] == listing;
  }

  /** `name` is the greatest matching name of the listing. */
  ghost predicate IsLatest(listing: seq<string>, matches: string -> bool, name: string) {
    name in listing && matches(name) && forall n :: n in listing && matches(n) ==> LexLeq(n, name)
  }

  lemma LatestIsUnique(listing: seq<string>, matches: string -> bool, a: string, b: string)
    requires IsLatest(listing, matches, a) && IsLatest(listing, matches, b)
    ensures a == b
  {
    LexAntisym(a, b);
  }

  // ------------------------------------------------------------------ timestamps

  /** A minute of the calendar, as `date '+%Y-%m-%d-%H-%M'` prints it. */
  datatype Stamp = Stamp(year: nat, month: nat, day: nat, hour: nat, minute: nat)

  /** Each field fits its printed width. */
  predicate Printable(t: Stamp) {
    t.year < 10000 && t.month < 100 && t.day < 100 && t.hour < 100 && t.minute < 100
  }

  predicate Earlier(a: Stamp, b: Stamp) {
    || a.year < b.year
    || (a.year == b.year && (
          || a.month < b.month
          || (a.month == b.month && (
                || a.day < b.day
                || (a.day == b.day && (
                      || a.hour < b.hour
                      || (a.hour == b.hour && a.minute < b.minute)))))))
  }

  function Digit(d: nat): char
    requires d < 10
  {
    '0' + d as char
  }

  /** `width` decimal digits of `n`. */
  function Digits(width: nat, n: nat): (s: string)
    ensures |s| == width
  {
    if width == 0 then "" else Digits(width - 1, n / 10) + [Digit(n % 10)]
  }

  function Pow10(k: nat): nat {
    if k == 0 then 1 else 10 * Pow10(k - 1)
  }

  function Date(t: Stamp): string {
    Digits(4, t.year) + "-" + Digits(2, t.month) + "-" + Digits(2, t.day) + "-" +
    Digits(2, t.hour) + "-" + Digits(2, t.minute)
  }

  /** `<prefix>-<db>-<date>.<ext>`. */
  function ObjectName(prefix: string, db: string, t: Stamp, ext: string): string {
    prefix + "-" + db + "-" + Date(t) + "." + ext
  }

  /** Strict byte order of strings of equal length. */
  predicate LexLess(a: string, b: string) {
    LexLeq(a, b) && a != b
  }

  lemma {:induction false} LexSamePrefix(p: string, a: string, b: string)
    ensures LexLeq(p + a, p + b) <==> LexLeq(a, b)
    decreases |p|
  {
    if p == [] {
      assert p + a == a && p + b == b;
    } else {
      assert (p + a)[1..] == p[1..] + a && (p + b)[1..] == p[1..] + b;
      LexSamePrefix(p[1..], a, b);
    }
  }

  /** Heads of equal length decide unless they are equal. */
  lemma {:induction false} LexHeads(x: string, y: string, a: string, b: string)
    requires |x| == |y|
    ensures LexLeq(x + a, y + b) <==> LexLess(x, y) || (x == y && LexLeq(a, b))
    decreases |x|
  {
    if x == [] {
      assert x + a == a && y + b == b;
    } else {
      assert (x + a)[1..] == x[1..] + a && (y + b)[1..] == y[1..] + b;
      LexHeads(x[1..], y[1..], a, b);
      assert x == [x[0]] + x[1..] && y == [y[0]] + y[1..];
    }
  }

  lemma {:induction false} DigitsOrder(width: nat, m: nat, n: nat)
    requires m < Pow10(width) && n < Pow10(width)
    ensures LexLeq(Digits(width, m), Digits(width, n)) <==> m <= n
    ensures Digits(width, m) == Digits(width, n) <==> m == n
    decreases width
  {
    if width > 0 {
      var x, y := Digits(width - 1, m / 10), Digits(width - 1, n / 10);
      DigitsOrder(width - 1, m / 10, n / 10);
      LexHeads(x, y, [Digit(m % 10)], [Digit(n % 10)]);
      assert Digits(width, m)[..width - 1] == x && Digits(width, n)[..width - 1] == y;
      assert Digits(width, m)[width - 1] == Digit(m % 10) && Digits(width, n)[width - 1] == Digit(n % 10);
    }
  }

  /** One fixed-width field followed by a dash and the rest. */
  lemma FieldThenRest(width: nat, m: nat, n: nat, a: string, b: string)
    requires m < Pow10(width) && n < Pow10(width)
    ensures LexLeq(Digits(width, m) + ("-" + a), Digits(width, n) + ("-" + b)) <==> m < n || (m == n && LexLeq(a, b))
  {
    DigitsOrder(width, m, n);
    LexHeads(Digits(width, m), Digits(width, n), "-" + a, "-" + b);
    LexSamePrefix("-", a, b);
  }

  lemma DateOrder(s: Stamp, t: Stamp, a: string, b: string)
    requires Printable(s) && Printable(t)
    ensures LexLeq(Date(s) + a, Date(t) + b) <==> Earlier(s, t) || (s == t && LexLeq(a, b))
  {
    assert Pow10(2) == 100 && Pow10(4) == 10000 by {
      assert Pow10(1) == 10 && Pow10(3) == 10 * Pow10(2);
    }
    DigitsOrder(2, s.minute, t.minute);
    LexHeads(Digits(2, s.minute), Digits(2, t.minute), a, b);
    FieldThenRest(2, s.hour, t.hour, FromMinute(s, a), FromMinute(t, b));
    FieldThenRest(2, s.day, t.day, FromHour(s, a), FromHour(t, b));
    FieldThenRest(2, s.month, t.month, FromDay(s, a), FromDay(t, b));
    FieldThenRest(4, s.year, t.year, FromMonth(s, a), FromMonth(t, b));
    DateParts(s, a);
    DateParts(t, b);
  }

  function FromMinute(t: Stamp, a: string): string {
    Digits(2, t.minute) + a
  }

  function FromHour(t: Stamp, a: string): string {
    Digits(2, t.hour) + ("-" + FromMinute(t, a))
  }

  function FromDay(t: Stamp, a: string): string {
    Digits(2, t.day) + ("-" + FromHour(t, a))
  }

  function FromMonth(t: Stamp, a: string): string {
    Digits(2, t.month) + ("-" + FromDay(t, a))
  }

  lemma DateParts(t: Stamp, a: string)
    ensures Date(t) + a == Digits(4, t.year) + ("-" + FromMonth(t, a))
  {
  }

  /** Byte order of the names of one prefix and database is the order of time, to the minute. */
  lemma NameOrderIsTimeOrder(prefix: string, db: string, ext: string, s: Stamp, t: Stamp)
    requires Printable(s) && Printable(t)
    ensures LexLeq(ObjectName(prefix, db, s, ext), ObjectName(prefix, db, t, ext)) <==> s == t || Earlier(s, t)
  {
    var head := prefix + "-" + db + "-";
    var tail := "." + ext;
    assert ObjectName(prefix, db, s, ext) == head + (Date(s) + tail);
    assert ObjectName(prefix, db, t, ext) == head + (Date(t) + tail);
    LexSamePrefix(head, Date(s) + tail, Date(t) + tail);
    DateOrder(s, t, tail, tail);
    LexTotal(tail, tail);
  }

  /** Hence the latest name of a listing of one database's backups is its newest backup. */
  lemma LatestIsNewest(
    prefix: string, db: string, ext: string, stamps: seq<Stamp>, listing: seq<string>,
    matches: string -> bool, newest: Stamp)
    requires |listing| == |stamps|
    requires forall i :: 0 <= i < |stamps| ==>
               Printable(stamps[i]) && listing[i] == ObjectName(prefix, db, stamps[i], ext) && matches(listing[i])
    requires newest in stamps
    ensures IsLatest(listing, matches, ObjectName(prefix, db, newest, ext)) <==>
            forall t :: t in stamps ==> t == newest || Earlier(t, newest)
  {
    var j :| 0 <= j < |stamps| && stamps[j] == newest;
    assert listing[j] in listing;
    forall i | 0 <= i < |stamps|
      ensures LexLeq(listing[i], listing[j]) <==> stamps[i] == newest || Earlier(stamps[i], newest)
    {
      NameOrderIsTimeOrder(prefix, db, ext, stamps[i], newest);
    }
  }

  // ------------------------------------------------------------------ several databases under one prefix

  /** Neither name, closed by its dash, begins the other: neither extends the other by a leading dash. */
  predicate Separate(d: string, e: string) {
    !(d + "-" <= e + "-") && !(e + "-" <= d + "-")
  }

  /** Strings that part before either ends are ordered by where they part, whatever follows. */
  lemma {:induction false} PartedOrder(a: string, b: string, x: string, y: string)
    requires !(a <= b) && !(b <= a)
    ensures LexLeq(a + x, b + y) <==> LexLeq(a, b)
    ensures !LexLeq(a, b) <==> LexLeq(b, a)
    decreases |a|
  {
    assert a != [] && b != [];
    assert (a + x)[1..] == a[1..] + x && (b + y)[1..] == b[1..] + y;
    assert (a + x)[0] == a[0] && (b + y)[0] == b[0];
    if a[0] == b[0] {
      assert a == [a[0]] + a[1..] && b == [b[0]] + b[1..];
      PartedOrder(a[1..], b[1..], x, y);
    }
  }

  /** The rest of `longer` after `shorter`, which begins it. */
  function Beyond(shorter: string, longer: string): string
    requires shorter <= longer
  {
    longer[|shorter|..]
  }

  /**
    The order of two backups' names without the names: time for one database; the databases
    with their dash for separate ones; and if one database extends the other by a dash, its
    extension against the other's date.
  */
  predicate Ranks(d: string, s: Stamp, e: string, t: Stamp, ext: string) {
    var a, b := Date(s) + "." + ext, Date(t) + "." + ext;
    if d == e then s == t || Earlier(s, t)
    else if d + "-" <= e + "-" then LexLeq(a, Beyond(d + "-", e + "-") + b)
    else if e + "-" <= d + "-" then LexLeq(Beyond(e + "-", d + "-") + a, b)
    else LexLeq(d + "-", e + "-")
  }

  lemma NameOrder(prefix: string, ext: string, d: string, s: Stamp, e: string, t: Stamp)
    requires Printable(s) && Printable(t)
    ensures LexLeq(ObjectName(prefix, d, s, ext), ObjectName(prefix, e, t, ext)) <==> Ranks(d, s, e, t, ext)
  {
    if d == e {
      NameOrderIsTimeOrder(prefix, d, ext, s, t);
    } else {
      var a, b := Date(s) + "." + ext, Date(t) + "." + ext;
      NameParts(prefix, d, s, ext, a);
      NameParts(prefix, e, t, ext, b);
      LexSamePrefix(prefix + "-", d + "-" + a, e + "-" + b);
      HeadOrder(d + "-", e + "-", a, b);
    }
  }

  lemma NameParts(prefix: string, d: string, s: Stamp, ext: string, a: string)
    requires a == Date(s) + "." + ext
    ensures ObjectName(prefix, d, s, ext) == prefix + "-" + (d + "-" + a)
  {
  }

  lemma HeadOrder(p: string, q: string, a: string, b: string)
    ensures LexLeq(p + a, q + b) <==>
            if p <= q then LexLeq(a, Beyond(p, q) + b)
            else if q <= p then LexLeq(Beyond(q, p) + a, b)
            else LexLeq(p, q)
  {
    if p <= q {
      assert q + b == p + (Beyond(p, q) + b);
      LexSamePrefix(p, a, Beyond(p, q) + b);
    } else if q <= p {
      assert p + a == q + (Beyond(q, p) + a);
      LexSamePrefix(q, Beyond(q, p) + a, b);
    } else {
      PartedOrder(p, q, a, b);
    }
  }

  /** Names of separate databases are ordered by the databases, whatever the times. */
  lemma DatabaseOutranksTime(prefix: string, ext: string, d: string, s: Stamp, e: string, t: Stamp)
    requires Printable(s) && Printable(t) && Separate(d, e)
    ensures LexLess(ObjectName(prefix, d, s, ext), ObjectName(prefix, e, t, ext)) <==> LexLeq(d + "-", e + "-")
    ensures LexLeq(d + "-", e + "-") <==> !LexLeq(e + "-", d + "-")
  {
    NameOrder(prefix, ext, d, s, e, t);
    NameOrder(prefix, ext, e, t, d, s);
    PartedOrder(d + "-", e + "-", [], []);
    var m, n := ObjectName(prefix, d, s, ext), ObjectName(prefix, e, t, ext);
    LexTotal(m, n);
    if LexLeq(m, n) && LexLeq(n, m) {
      LexAntisym(m, n);
    }
  }

  /**
    A database that extends another by a dash and something that is no digit (`app` and
    `app-test`) is ordered by that something alone; only a digit (`app-2`) mixes with the date.
  */
  lemma DashExtension(d: string, x: string, s: Stamp, t: Stamp, ext: string)
    requires !('0' <= (x + "-")[0] <= '9')
    ensures Ranks(d, s, d + "-" + x, t, ext) <==> '9' < (x + "-")[0]
    ensures Ranks(d + "-" + x, t, d, s, ext) <==> (x + "-")[0] < '0'
  {
    var p, q := d + "-", d + "-" + x + "-";
    assert q == p + (x + "-");
    assert p <= q && Beyond(p, q) == x + "-";
    assert !(q <= p);
    FirstDigit(s);
  }

  lemma FirstDigit(t: Stamp)
    ensures Date(t) != "" && '0' <= Date(t)[0] <= '9'
  {
    assert Date(t)[0] == Digits(4, t.year)[0];
    assert Digits(4, t.year)[0] == Digits(3, t.year / 10)[0] == Digits(2, t.year / 10 / 10)[0];
    assert Digits(2, t.year / 10 / 10)[0] == Digits(1, t.year / 10 / 10 / 10)[0];
    assert Digits(1, t.year / 10 / 10 / 10) ==
           Digits(0, t.year / 10 / 10 / 10 / 10) + [Digit(t.year / 10 / 10 / 10 % 10)];
  }

  datatype Taken = Taken(db: string, at: Stamp)

  ghost predicate IsListing(
    prefix: string, ext: string, taken: seq<Taken>, listing: seq<string>, matches: string -> bool) {
    && |listing| == |taken|
    && forall i :: 0 <= i < |taken| ==>
         Printable(taken[i].at) && listing[i] == ObjectName(prefix, taken[i].db, taken[i].at, ext) &&
         matches(listing[i])
  }

  /** The latest name of any listing, of whatever databases, in terms of databases and times. */
  lemma LatestOfMany(
    prefix: string, ext: string, taken: seq<Taken>, listing: seq<string>, matches: string -> bool, b: Taken)
    requires IsListing(prefix, ext, taken, listing, matches) && b in taken
    ensures IsLatest(listing, matches, ObjectName(prefix, b.db, b.at, ext)) <==>
            forall i :: 0 <= i < |taken| ==> Ranks(taken[i].db, taken[i].at, b.db, b.at, ext)
  {
    var j :| 0 <= j < |taken| && taken[j] == b;
    assert listing[j] in listing;
    forall i | 0 <= i < |taken|
      ensures LexLeq(listing[i], listing[j]) <==> Ranks(taken[i].db, taken[i].at, b.db, b.at, ext)
    {
      NameOrder(prefix, ext, taken[i].db, taken[i].at, b.db, b.at);
    }
  }

  /**
    With separate databases the latest name is the newest backup of the greatest database: it
    is the newest of all exactly if no other database has a newer one.
  */
  lemma LatestOfSeparate(
    prefix: string, ext: string, taken: seq<Taken>, listing: seq<string>, matches: string -> bool, b: Taken)
    requires IsListing(prefix, ext, taken, listing, matches) && b in taken
    requires forall i :: 0 <= i < |taken| ==> taken[i].db == b.db || Separate(taken[i].db, b.db)
    ensures IsLatest(listing, matches, ObjectName(prefix, b.db, b.at, ext)) <==>
            forall i :: 0 <= i < |taken| ==>
              if taken[i].db == b.db then taken[i].at == b.at || Earlier(taken[i].at, b.at)
              else LexLeq(taken[i].db + "-", b.db + "-")
  {
    LatestOfMany(prefix, ext, taken, listing, matches, b);
  }

  // ------------------------------------------------------------------ globs

  /** The shell pattern `<head>*<tail>`. */
  predicate Glob(head: string, tail: string, name: string) {
    |head| + |tail| <= |name| && head <= name && name[|name| - |tail|..] == tail
  }

  /** The dump formats, each with its prefix and extension. */
  datatype Format = Postgres | MariaDB | Redis | Volume

  function Prefix(e: Format): string {
    match e
    case Postgres => "pg_dump"
    case MariaDB => "mysqldump"
    case Redis => "redisdump"
    case Volume => "pvcdump"
  }

  function Extension(e: Format): string {
    match e
    case Postgres => "pgdump"
    case MariaDB => "sql"
    case Redis => "rdb"
    case Volume => "tar"
  }

  /** The pattern the stages and the fetch use: plain files, `.gz` files, `.gz.gpg` files. */
  predicate EngineGlob(e: Format, suffix: string, name: string) {
    Glob(Prefix(e) + "-", "." + Extension(e) + suffix, name)
  }

  /** The patterns as the scripts spell them. */
  lemma PatternsAreSpelled(e: Format, name: string)
    ensures EngineGlob(e, ".gz.gpg", name) <==>
            match e
            case Postgres => Glob("pg_dump-", ".pgdump.gz.gpg", name)
            case MariaDB => Glob("mysqldump-", ".sql.gz.gpg", name)
            case Redis => Glob("redisdump-", ".rdb.gz.gpg", name)
            case Volume => Glob("pvcdump-", ".tar.gz.gpg", name)
  {
    match e
    case Postgres => assert Prefix(e) + "-" == "pg_dump-" && "." + Extension(e) + ".gz.gpg" == ".pgdump.gz.gpg";
    case MariaDB => assert Prefix(e) + "-" == "mysqldump-" && "." + Extension(e) + ".gz.gpg" == ".sql.gz.gpg";
    case Redis => assert Prefix(e) + "-" == "redisdump-" && "." + Extension(e) + ".gz.gpg" == ".rdb.gz.gpg";
    case Volume => assert Prefix(e) + "-" == "pvcdump-" && "." + Extension(e) + ".gz.gpg" == ".tar.gz.gpg";
  }

  /** Each stage's glob finds what the stage before wrote, and fetch's glob finds what was uploaded. */
  lemma GlobsFollowTheFile(e: Format, db: string, t: Stamp, suffix: string)
    ensures EngineGlob(e, suffix, ObjectName(Prefix(e), db, t, Extension(e)) + suffix)
  {
    var head, tail := Prefix(e) + "-", "." + Extension(e) + suffix;
    var middle := db + "-" + Date(t);
    var name := ObjectName(Prefix(e), db, t, Extension(e)) + suffix;
    assert name == head + middle + tail;
    assert name[..|head|] == head;
    assert name[|name| - |tail|..] == tail;
  }

  // ------------------------------------------------------------------ keys in nested prefixes

  /** The part of a key after its last slash. */
  function BaseName(key: string): string {
    if '/' in key then BaseName(key[1..]) else key
  }

  lemma {:induction false} BaseOfNested(dir: string, name: string)
    requires '/' !in name
    ensures BaseName(dir + "/" + name) == name
    decreases |dir|
  {
    var key := dir + "/" + name;
    assert key[|dir|] == '/';
    if dir == "" {
      assert key[1..] == name;
    } else {
      assert key[1..] == dir[1..] + "/" + name;
      BaseOfNested(dir[1..], name);
    }
  }

  lemma {:induction false} DigitsArePlain(width: nat, n: nat)
    ensures '/' !in Digits(width, n)
  {
    if width > 0 {
      DigitsArePlain(width - 1, n / 10);
    }
  }

  lemma DateIsPlain(t: Stamp)
    ensures '/' !in Date(t)
  {
    DigitsArePlain(4, t.year);
    DigitsArePlain(2, t.month);
    DigitsArePlain(2, t.day);
    DigitsArePlain(2, t.hour);
    DigitsArePlain(2, t.minute);
  }

  /** The name of an archive of a database without a slash has none. */
  lemma ArchiveNameIsPlain(f: Format, db: string, t: Stamp)
    requires '/' !in db
    ensures '/' !in ObjectName(Prefix(f), db, t, Extension(f)) + ".gz.gpg"
  {
    DateIsPlain(t);
    assert '/' !in Prefix(f) && '/' !in Extension(f) && '/' !in ".gz.gpg";
  }

  /** An archive in a nested prefix is found like one beside it. */
  lemma NestedIsFound(f: Format, dir: string, db: string, t: Stamp)
    requires '/' !in db
    ensures EngineGlob(f, ".gz.gpg", BaseName(dir + "/" + (ObjectName(Prefix(f), db, t, Extension(f)) + ".gz.gpg")))
  {
    ArchiveNameIsPlain(f, db, t);
    BaseOfNested(dir, ObjectName(Prefix(f), db, t, Extension(f)) + ".gz.gpg");
    GlobsFollowTheFile(f, db, t, ".gz.gpg");
  }

  /** A nested key and a flat one are ordered by the directory and the flat name, whatever the times. */
  lemma NestedOutranksTime(dir: string, name: string, flat: string)
    requires '/' !in flat && !(flat <= dir + "/")
    ensures LexLeq(flat, dir + "/" + name) <==> LexLeq(flat, dir + "/")
    ensures LexLeq(dir + "/" + name, flat) <==> !LexLeq(flat, dir + "/")
  {
    var d := dir + "/";
    assert d[|dir|] == '/';
    if |d| <= |flat| {
      assert flat[|dir|] in flat && d[|dir|] != flat[|dir|];
    }
    assert !(d <= flat);
    assert flat + [] == flat;
    PartedOrder(flat, d, [], name);
    PartedOrder(d, flat, name, []);
  }

  /** So a directory that comes after the flat names hides them all from the latest. */
  lemma NestedHidesFlat(listing: seq<string>, matches: string -> bool, dir: string, name: string, flat: string)
    requires dir + "/" + name in listing && matches(dir + "/" + name)
    requires '/' !in flat && !(flat <= dir + "/") && LexLeq(flat, dir + "/")
    ensures !IsLatest(listing, matches, flat)
  {
    NestedOutranksTime(dir, name, flat);
  }
}
