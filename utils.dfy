/**
 * The shell's utility layer: text predicates the shell relies on, file-system
 * paths as segment sequences, operating-system detection and the per-system
 * cache directory, the cause chain of a thrown error, and the stopwatch.
 */
module Utils {
  import opened Wrappers

  // ---------------------------------------------------------------------
  // Text
  // ---------------------------------------------------------------------

  /**
   * Kotlin's `Char.isWhitespace()` on Java 8, which is
   * `Character.isWhitespace(c) || Character.isSpaceChar(c)` over Unicode 6.2:
   * the control characters U+0009..U+000D and U+001C..U+001F, every space
   * separator (U+0020, U+00A0, U+1680, U+180E, U+2000..U+200A, U+202F,
   * U+205F, U+3000) and the line and paragraph separators U+2028, U+2029.
   */
  predicate IsWhitespace(c: char) {
    || ('\t' <= c <= '\r')
    || ('\U{1C}' <= c <= ' ')
    || c == '\U{A0}'
    || c == '\U{1680}' || c == '\U{180E}'
    || ('\U{2000}' <= c <= '\U{200A}')
    || c == '\U{2028}' || c == '\U{2029}'
    || c == '\U{202F}' || c == '\U{205F}'
    || c == '\U{3000}'
  }

  /** Kotlin's `isBlank()`: empty, or whitespace only. */
  predicate IsBlank(s: string) {
    forall i :: 0 <= i < |s| ==> IsWhitespace(s[i])
  }

  /** Kotlin's `isNullOrBlank()`. */
  predicate IsNullOrBlank(s: Option<string>) {
    s.None? || IsBlank(s.value)
  }

  /** Lower-casing of one character, for the ASCII letters. */
  function LowerChar(c: char): char {
    if 'A' <= c <= 'Z' then (c as int + ('a' as int - 'A' as int)) as char else c
  }

  /** `String.toLowerCase()`, letter by letter. */
  function ToLower(s: string): (r: string)
    ensures |r| == |s|
    ensures forall i :: 0 <= i < |s| ==> r[i] == LowerChar(s[i])
  {
    if s == [] then [] else [LowerChar(s[0])] + ToLower(s[1..])
  }

  /** `a` and `b` are the same text once the case of their letters is ignored. */
  predicate SameIgnoringCase(a: string, b: string) {
    |a| == |b| && forall i :: 0 <= i < |a| ==> LowerChar(a[i]) == LowerChar(b[i])
  }

  /** `sub` occurs in `s` starting at index `i`. */
  predicate OccursAt(s: string, sub: string, i: int) {
    0 <= i && i + |sub| <= |s| && s[i..i + |sub|] == sub
  }

  /** Kotlin's `String.contains(sub)`. */
  predicate Contains(s: string, sub: string) {
    exists i :: 0 <= i <= |s| && OccursAt(s, sub, i)
  }

  // ---------------------------------------------------------------------
  // Paths
  // ---------------------------------------------------------------------

  /**
   * A `java.nio.file.Path`, as the sequence of its names. Every name is
   * non-empty: the JDK drops empty names when it builds a path.
   */
  datatype Path = Path(segments: seq<string>)

  /** The names of `names` that are not empty, in order. */
  function NonEmptyNames(names: seq<string>): (r: seq<string>)
    ensures forall s :: s in r ==> s != "" && s in names
    ensures forall s :: s in names && s != "" ==> s in r
  {
    if names == [] then []
    else (if names[0] == "" then [] else [names[0]]) + NonEmptyNames(names[1..])
  }

  /** `Paths.get(first, more...)`: the names given, with empty ones dropped. */
  function PathsGet(first: string, more: seq<string>): Path {
    Path(NonEmptyNames([first] + more))
  }

  /** `String.toPath()`, which is `Paths.get(this)`: one name, or none for the empty text. */
  function ToPath(s: string): (p: Path)
    ensures s == "" ==> p.segments == []
    ensures s != "" ==> p.segments == [s]
  {
    assert [s] + [] == [s] && [s][1..] == [];
    assert NonEmptyNames([s]) == (if s == "" then [] else [s]) + NonEmptyNames([]);
    PathsGet(s, [])
  }

  /**
   * `path / other`, which is `Path.resolve(other)`: one name appended, or the
   * path itself when `other` is empty.
   */
  function Div(p: Path, other: string): (q: Path)
    ensures other == "" ==> q == p
    ensures other != "" ==> |q.segments| == |p.segments| + 1
    ensures other != "" ==> q.segments[..|p.segments|] == p.segments
    ensures other != "" ==> q.segments[|p.segments|] == other
  {
    if other == "" then p else Path(p.segments + [other])
  }

  /** `p / names[0] / names[1] / ...`. */
  function DivAll(p: Path, names: seq<string>): Path
    decreases |names|
  {
    if names == [] then p else DivAll(Div(p, names[0]), names[1..])
  }

  /** Appending names one by one with `/` appends exactly the non-empty ones. */
  lemma {:induction false} DivAllAppends(p: Path, names: seq<string>)
    ensures DivAll(p, names) == Path(p.segments + NonEmptyNames(names))
    decreases |names|
  {
    if names != [] {
      var q := Div(p, names[0]);
      assert q.segments == p.segments + NonEmptyNames([names[0]]);
      DivAllAppends(q, names[1..]);
      assert names == [names[0]] + names[1..];
      assert NonEmptyNames(names) == NonEmptyNames([names[0]]) + NonEmptyNames(names[1..]);
    }
  }

  /** `Paths.get(first, a, b, ...)` is `first.toPath() / a / b / ...`. */
  lemma PathsGetIsDivAll(first: string, more: seq<string>)
    ensures PathsGet(first, more) == DivAll(ToPath(first), more)
  {
    DivAllAppends(ToPath(first), more);
    assert NonEmptyNames([first] + more) == NonEmptyNames([first]) + NonEmptyNames(more) by {
      assert ([first] + more)[1..] == more;
    }
  }

  // ---------------------------------------------------------------------
  // Operating systems and the application cache directory
  // ---------------------------------------------------------------------

  /** The environment the cache directory is computed from. */
  datatype Environment = Environment(
    userHome: string,               // the `user.home` system property
    localAppData: Option<string>,   // the `LOCALAPPDATA` variable
    xdgCacheHome: Option<string>    // the `XDG_CACHE_HOME` variable
  )

  /** Why there is no cache directory. */
  datatype CacheDirError =
    | Unreachable                        // `error("Unreachable")` for an unknown system
    | MissingVariable(name: string)      // the environment variable the rule needs is unset

  datatype OperatingSystem = MAC | WIN | LINUX | UNKNOWN {

    /** The directory in which the shell caches downloaded applications. */
    function AppCacheDirectory(env: Environment): (r: Result<Path, CacheDirError>)
      ensures this == MAC ==>
        r == Ok(DivAll(ToPath(env.userHome), ["Library", "Caches", "Graviton Browser"]))
      ensures this == WIN && env.localAppData.Some? ==>
        r == Ok(DivAll(ToPath(env.localAppData.value), ["GravitonBrowser", "Cache"]))
      ensures this == LINUX && IsNullOrBlank(env.xdgCacheHome) ==>
        r == Ok(DivAll(ToPath(env.userHome), [".cache", "GravitonBrowser"]))
      ensures this == LINUX && !IsNullOrBlank(env.xdgCacheHome) ==>
        r == Ok(Div(ToPath(env.xdgCacheHome.value), "GravitonBrowser"))
      ensures r.Err? <==> this == UNKNOWN || (this == WIN && env.localAppData.None?)
      ensures r == Err(Unreachable) <==> this == UNKNOWN
    {
      match this
      case MAC =>
        PathsGetIsDivAll(env.userHome, ["Library", "Caches", "Graviton Browser"]);
        Ok(PathsGet(env.userHome, ["Library", "Caches", "Graviton Browser"]))
      case WIN =>
        if env.localAppData.None? then Err(MissingVariable("LOCALAPPDATA"))
        else
          PathsGetIsDivAll(env.localAppData.value, ["GravitonBrowser", "Cache"]);
          Ok(PathsGet(env.localAppData.value, ["GravitonBrowser", "Cache"]))
      case LINUX =>
        if IsNullOrBlank(env.xdgCacheHome) then
          PathsGetIsDivAll(env.userHome, [".cache", "GravitonBrowser"]);
          Ok(PathsGet(env.userHome, [".cache", "GravitonBrowser"]))
        else
          PathsGetIsDivAll(env.xdgCacheHome.value, ["GravitonBrowser"]);
          Ok(PathsGet(env.xdgCacheHome.value, ["GravitonBrowser"]))
      case UNKNOWN =>
        Err(Unreachable)
    }
  }

  /**
   * `currentOperatingSystem`, from the `os.name` system property: the name is
   * lower-cased and then tested for "win", "mac" and "linux", in that order.
   */
  function CurrentOperatingSystem(osName: string): (os: OperatingSystem)
    ensures var name := ToLower(osName);
      && (os == WIN <==> Contains(name, "win"))
      && (os == MAC <==> !Contains(name, "win") && Contains(name, "mac"))
      && (os == LINUX <==> !Contains(name, "win") && !Contains(name, "mac") && Contains(name, "linux"))
  {
    var name := ToLower(osName);
    if Contains(name, "win") then WIN
    else if Contains(name, "mac") then MAC
    else if Contains(name, "linux") then LINUX
    else UNKNOWN
  }

  /** Lower-casing twice changes nothing more. */
  lemma {:induction false} ToLowerIdempotent(s: string)
    ensures ToLower(ToLower(s)) == ToLower(s)
  {
    var once := ToLower(s);
    forall i | 0 <= i < |s| ensures ToLower(once)[i] == once[i] {
      assert once[i] == LowerChar(s[i]);
    }
  }

  /** The detection ignores case: names that differ only in case give the same system. */
  lemma CurrentOperatingSystemIgnoresCase(a: string, b: string)
    requires SameIgnoringCase(a, b)
    ensures CurrentOperatingSystem(a) == CurrentOperatingSystem(b)
  {
    assert ToLower(a) == ToLower(b);
  }

  /** Lower-casing the name before detection changes nothing. */
  lemma CurrentOperatingSystemOfLowered(osName: string)
    ensures CurrentOperatingSystem(ToLower(osName)) == CurrentOperatingSystem(osName)
  {
    ToLowerIdempotent(osName);
  }

  /** "Mac OS X", the name the JVM reports on macOS, is detected as MAC. */
  lemma DetectsMacOsX()
    ensures CurrentOperatingSystem("Mac OS X") == MAC
  {
    var name := ToLower("Mac OS X");
    assert name == "mac os x";
    assert OccursAt(name, "mac", 0);
    forall i | 0 <= i <= |name| ensures !OccursAt(name, "win", i) {
      if i + 3 <= |name| { assert name[i..i + 3][0] == name[i] != 'w'; }
    }
  }

  /** "Windows 10" is detected as WIN. */
  lemma DetectsWindows()
    ensures CurrentOperatingSystem("Windows 10") == WIN
  {
    var name := ToLower("Windows 10");
    assert name[..3] == "win";
    assert OccursAt(name, "win", 0);
  }

  /** "Linux" is detected as LINUX. */
  lemma DetectsLinux()
    ensures CurrentOperatingSystem("Linux") == LINUX
  {
    var name := ToLower("Linux");
    assert name == "linux";
    assert OccursAt(name, "linux", 0);
    forall i | 0 <= i <= |name| ensures !OccursAt(name, "win", i) && !OccursAt(name, "mac", i) {
      if i + 3 <= |name| { assert name[i..i + 3][0] == name[i] && name[i] != 'w' && name[i] != 'm'; }
    }
  }

  /** The "win" test comes first: "Darwin" contains "win" and is detected as WIN. */
  lemma DetectsDarwinAsWindows()
    ensures CurrentOperatingSystem("Darwin") == WIN
  {
    var name := ToLower("Darwin");
    assert name == "darwin";
    assert name[3..6] == "win";
    assert OccursAt(name, "win", 3);
  }

  /** A name with none of the three words, such as "SunOS", is UNKNOWN. */
  lemma DetectsSunOsAsUnknown()
    ensures CurrentOperatingSystem("SunOS") == UNKNOWN
  {
    var name := ToLower("SunOS");
    assert name == "sunos";
    forall i | 0 <= i <= |name|
      ensures !OccursAt(name, "win", i) && !OccursAt(name, "mac", i) && !OccursAt(name, "linux", i)
    {
      if i + 3 <= |name| { assert name[i..i + 3][0] == name[i] && name[i] != 'w' && name[i] != 'm'; }
    }
  }

  // ---------------------------------------------------------------------
  // Thrown errors and their cause chains
  // ---------------------------------------------------------------------

  /** The error classes the shell tells apart with `is` (an instance of the class or of a subclass). */
  datatype ErrorKind =
    | MetadataNotFound(metadata: string)   // org.eclipse.aether.transfer.MetadataNotFoundException
    | ArtifactNotFound                     // org.eclipse.aether.transfer.ArtifactNotFoundException
    | IndexOutOfBounds                     // java.lang.IndexOutOfBoundsException
    | StartException                       // AppLauncher.StartException
    | OtherError                           // any other Throwable

  /**
   * A `Throwable`: what the shell tests it against, the name of its runtime
   * class, its message and its cause. A cause chain is finite and acyclic by
   * construction.
   */
  datatype Throwable = Throwable(
    kind: ErrorKind,
    className: string,
    message: Option<string>,
    cause: Option<Throwable>
  )

  /** `Throwable.toString()`: the class name, then ": " and the message when there is one. */
  function Describe(e: Throwable): (s: string)
    ensures |s| >= |e.className| && s[..|e.className|] == e.className
    ensures e.message.None? ==> s == e.className
    ensures e.message.Some? ==> s[|e.className|..] == ": " + e.message.value
  {
    match e.message
    case None => e.className
    case Some(m) => e.className + ": " + m
  }

  /** The chain `e`, its cause, that one's cause, ..., down to the error without a cause. */
  function Chain(e: Throwable): (c: seq<Throwable>)
    ensures |c| >= 1 && c[0] == e
    ensures c[|c| - 1].cause.None?
    ensures forall i :: 0 <= i < |c| - 1 ==> c[i].cause == Some(c[i + 1])
    decreases e
  {
    match e.cause
    case None => [e]
    case Some(next) => [e] + Chain(next)
  }

  /** The innermost error of the chain that starts at `e`. */
  function RootCauseOf(e: Throwable): (r: Throwable)
    ensures r.cause.None?
    ensures r == Chain(e)[|Chain(e)| - 1]
    ensures e.cause.None? ==> r == e
    decreases e
  {
    match e.cause
    case None => e
    case Some(next) => RootCauseOf(next)
  }

  /** The root cause is the only link of the chain that has no cause. */
  lemma RootCauseIsOnlyCauseless(e: Throwable, i: int)
    requires 0 <= i < |Chain(e)|
    ensures Chain(e)[i].cause.None? <==> Chain(e)[i] == RootCauseOf(e)
  {
  }

  /** An error and its cause have the same root cause. */
  lemma RootCauseOfCause(e: Throwable)
    requires e.cause.Some?
    ensures RootCauseOf(e.cause.value) == RootCauseOf(e)
  {
  }

  /** `Throwable.rootCause`: follows `cause` until an error without a cause. */
  method RootCause(e: Throwable) returns (t: Throwable)
    ensures t.cause.None?
    ensures t == RootCauseOf(e)
  {
    t := e;
    while t.cause.Some?
      invariant RootCauseOf(t) == RootCauseOf(e)
      decreases t
    {
      t := t.cause.value;
    }
  }

  // ---------------------------------------------------------------------
  // Integer arithmetic of the JVM and the stopwatch
  // ---------------------------------------------------------------------

  /** Integer division rounding toward zero, as `Long` division does. */
  function TruncDiv(a: int, d: int): (q: int)
    requires d > 0
    ensures a >= 0 ==> 0 <= q && q * d <= a < (q + 1) * d
    ensures a < 0 ==> q <= 0 && (q - 1) * d < a <= q * d
  {
    var q0 := (if a >= 0 then a else -a) / d;
    assert (q0 + 1) * d == q0 * d + d;
    if a >= 0 then q0 else -q0
  }

  /** Multiplication by a positive number preserves strict order, read backwards. */
  lemma ProductBelow(x: int, y: int, d: int)
    requires d > 0 && x * d < y * d
    ensures x < y
  {
    assert (y - x) * d == y * d - x * d;
  }

  /** Truncating division by a positive number is monotone. */
  lemma TruncDivMonotone(a: int, b: int, d: int)
    requires d > 0 && a <= b
    ensures TruncDiv(a, d) <= TruncDiv(b, d)
  {
    var qa, qb := TruncDiv(a, d), TruncDiv(b, d);
    if 0 <= a {
      // qa * d <= a <= b < (qb + 1) * d
      ProductBelow(qa, qb + 1, d);
    } else if b < 0 {
      // (qa - 1) * d < a <= b <= qb * d
      ProductBelow(qa - 1, qb, d);
    }
  }

  /** Nanoseconds in one tenth of a second. */
  const NANOS_PER_TENTH: int := 100_000_000

  /** A stopwatch started at a reading of the monotonic nanosecond clock. */
  class Stopwatch {
    const start: int

    /** Starts the stopwatch at clock reading `now`. */
    constructor (now: int)
      ensures start == now
    {
      start := now;
    }

    /**
     * `elapsedInSec`, in whole tenths of a second: the nanoseconds since
     * `start`, divided by 10^8 with truncation.
     */
    function ElapsedTenths(now: int): (t: int)
      ensures now >= start ==> 0 <= t && t * NANOS_PER_TENTH <= now - start < (t + 1) * NANOS_PER_TENTH
    {
      TruncDiv(now - start, NANOS_PER_TENTH)
    }
  }

  /** A later clock reading never shows less elapsed time. */
  lemma ElapsedTenthsMonotone(w: Stopwatch, now1: int, now2: int)
    requires now1 <= now2
    ensures w.ElapsedTenths(now1) <= w.ElapsedTenths(now2)
  {
    TruncDivMonotone(now1 - w.start, now2 - w.start, NANOS_PER_TENTH);
  }
}
