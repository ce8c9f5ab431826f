/** The start-up version check of the plugin (`src/init.cc`): the semantic
    version is cut out of a library's file name into a fixed buffer, in
    place, and only regular files whose name starts with `libndb` are looked
    at. A C string is a `string` without NUL; the buffer is an `array<char>`
    holding a NUL-terminated string. */
module SemverFile {
  import opened Wrappers
  import opened Text

  /** The test on the first digit: as written it also turns away `0` and
      `9`; intended, it only turns away a name without digits. */
  datatype DigitCheck = AsWritten | Intended

  const FailsafeExt: string := ".failsafe"
  const SoExt: string := ".so"
  const LibPrefix: string := "libndb"
  /** The size of the buffer `ndb_init` extracts into. */
  const BufferSize: nat := 256

  /** The index of the first digit of `s`, or `|s|` when it has none. */
  function FirstDigit(s: string): (r: nat)
    ensures r <= |s|
    ensures r < |s| ==> IsDigit(s[r])
    ensures forall k :: 0 <= k < r ==> !IsDigit(s[k])
  {
    if |s| == 0 then 0
    else if IsDigit(s[0]) then 0
    else 1 + FirstDigit(s[1..])
  }

  /** Whether the extraction gives up on `rest`, the name from its first
      digit on. Past the end of a C string is its NUL, which is below `0`. */
  predicate Rejects(check: DigitCheck, rest: string)
  {
    match check
    case AsWritten => |rest| == 0 || rest[0] <= '0' || rest[0] >= '9'
    case Intended => |rest| == 0
  }

  /** `strrchr` for the last dot, then `strcmp` of the tail with `ext`: the
      tail is cut off when it is exactly `ext`. */
  function StripExt(s: string, ext: string): string
  {
    var d := LastIndexOf(s, '.');
    if d >= 0 && s[d..] == ext then s[..d] else s
  }

  /** The version text extracted from the file name `fn` into a buffer of
      `size` characters, or None for a null result. */
  function SemverOf(fn: string, size: nat, check: DigitCheck): Option<string>
  {
    var rest := fn[FirstDigit(fn)..];
    if Rejects(check, rest) || |rest| >= size then None
    else Some(StripExt(StripExt(rest, FailsafeExt), SoExt))
  }

  /** Both extensions start with their only dot. */
  lemma ExtensionsHaveOneDot(ext: string)
    requires ext == FailsafeExt || ext == SoExt
    ensures |ext| > 0 && ext[0] == '.' && '.' !in ext[1..]
  {
    if ext == FailsafeExt {
      assert ext[1..] == "failsafe";
    } else {
      assert ext[1..] == "so";
    }
  }

  /** Cutting either extension removes exactly a matching suffix. */
  lemma StripExtSuffix(s: string, ext: string)
    requires ext == FailsafeExt || ext == SoExt
    ensures StripExt(s, ext) == if EndsWith(s, ext) then s[..|s| - |ext|] else s
  {
    ExtensionsHaveOneDot(ext);
    var d := LastIndexOf(s, '.');
    if EndsWith(s, ext) {
      var e := |s| - |ext|;
      assert s[e] == ext[0];
      forall k | e < k < |s|
        ensures s[k] != '.'
      {
        assert s[k] == ext[1..][k - e - 1];
      }
      assert d == e;
    }
    assert d >= 0 && s[d..] == ext ==> EndsWith(s, ext);
  }

  /** Cutting `.failsafe` and then `.so` leaves the text with at most those
      two suffixes removed, and keeps its first character when it does not
      start with a dot. */
  lemma StripBothSuffixes(rest: string)
    requires |rest| > 0 && rest[0] != '.'
    ensures var v := StripExt(StripExt(rest, FailsafeExt), SoExt);
      |v| > 0 && v[0] == rest[0]
      && (v == rest || v + SoExt == rest || v + FailsafeExt == rest || v + SoExt + FailsafeExt == rest)
  {
    StripExtSuffix(rest, FailsafeExt);
    var r1 := StripExt(rest, FailsafeExt);
    assert |r1| > 0 && r1[0] == rest[0] && (r1 == rest || r1 + FailsafeExt == rest);
    StripExtSuffix(r1, SoExt);
    var v := StripExt(r1, SoExt);
    assert |v| > 0 && v[0] == r1[0] && (v == r1 || v + SoExt == r1);
    if v + SoExt == r1 && r1 + FailsafeExt == rest {
      assert v + SoExt + FailsafeExt == rest;
    }
  }

  /** The extracted version: null exactly when the name has no digit (or,
      as written, starts its digits with `0` or `9`) or the rest of the name
      does not fit the buffer with its NUL; otherwise the rest of the name
      from the first digit with at most `.failsafe` and then `.so` cut off. */
  lemma SemverShape(fn: string, size: nat, check: DigitCheck)
    ensures var rest := fn[FirstDigit(fn)..];
      && (SemverOf(fn, size, check).None? <==> Rejects(check, rest) || |rest| >= size)
      && (SemverOf(fn, size, check).Some? ==>
          var v := SemverOf(fn, size, check).value;
          |v| > 0 && IsDigit(v[0])
          && (v == rest || v + SoExt == rest || v + FailsafeExt == rest || v + SoExt + FailsafeExt == rest))
  {
    var rest := fn[FirstDigit(fn)..];
    if |rest| > 0 {
      assert rest[0] == fn[FirstDigit(fn)];
      StripBothSuffixes(rest);
    }
  }

  /** A version without either extension is kept whole, as is `1.2.3`. */
  lemma PlainVersionKept(fn: string, check: DigitCheck)
    requires var rest := fn[FirstDigit(fn)..];
      !Rejects(check, rest) && |rest| < BufferSize && !EndsWith(rest, FailsafeExt) && !EndsWith(rest, SoExt)
    ensures SemverOf(fn, BufferSize, check) == Some(fn[FirstDigit(fn)..])
  {
    var rest := fn[FirstDigit(fn)..];
    StripExtSuffix(rest, FailsafeExt);
    StripExtSuffix(rest, SoExt);
  }

  /** In `libndb-` followed by a version, the version starts at index 7. */
  lemma LibraryFirstDigit(v: string)
    requires |v| > 0 && IsDigit(v[0])
    ensures FirstDigit("libndb-" + v) == 7
    ensures ("libndb-" + v)[7..] == v
  {
    var a := "libndb-" + v;
    assert IsDigit(a[7]);
    assert forall j :: 0 <= j < 7 ==> !IsDigit(a[j]);
  }

  /** `libndb-1.2.3` gives `1.2.3` unchanged. */
  lemma PlainExample()
    ensures SemverOf("libndb-1.2.3", BufferSize, AsWritten) == Some("1.2.3")
  {
    LibraryFirstDigit("1.2.3");
    assert "libndb-" + "1.2.3" == "libndb-1.2.3";
    StripExtSuffix("1.2.3", FailsafeExt);
    StripExtSuffix("1.2.3", SoExt);
  }

  /** Cutting an extension just appended gives back the text. */
  lemma StripAppended(s: string, ext: string)
    requires ext == FailsafeExt || ext == SoExt
    ensures StripExt(s + ext, ext) == s
  {
    var t := s + ext;
    assert t[|s|..] == ext && t[..|s|] == s;
    StripExtSuffix(t, ext);
  }

  /** A failsafe library `libndb-<v>.so.failsafe` yields `v`, as written,
      when `v` starts with a digit other than `0` and `9`: both extensions
      go. */
  lemma FailsafeLibraryVersion(v: string)
    requires |v| > 0 && '0' < v[0] < '9' && |v| + 12 < BufferSize
    ensures SemverOf("libndb-" + v + SoExt + FailsafeExt, BufferSize, AsWritten) == Some(v)
  {
    var full := v + SoExt + FailsafeExt;
    LibraryFirstDigit(full);
    assert "libndb-" + v + SoExt + FailsafeExt == "libndb-" + full;
    StripAppended(v + SoExt, FailsafeExt);
    StripAppended(v, SoExt);
  }

  /** A name without digits gives null. */
  lemma NoDigitExample()
    ensures SemverOf("libndb.so", BufferSize, AsWritten) == None
  {
    var a := "libndb.so";
    assert forall j :: 0 <= j < |a| ==> !IsDigit(a[j]);
  }

  /** As written, a version whose first digit is `0` or `9` is never
      extracted, however well it fits. */
  lemma ZeroOrNineRejected(fn: string, size: nat)
    requires FirstDigit(fn) < |fn| && (fn[FirstDigit(fn)] == '0' || fn[FirstDigit(fn)] == '9')
    ensures SemverOf(fn, size, AsWritten) == None
  {
    var rest := fn[FirstDigit(fn)..];
    assert rest[0] == fn[FirstDigit(fn)];
  }

  /** A library `libndb-<v>.so` whose version starts with `0` gives null as
      written, where the intended check gives `v` (`libndb-0.9.0.so` is
      one). */
  lemma LeadingZeroLibrary(v: string)
    requires |v| > 0 && v[0] == '0' && |v| + 10 < BufferSize
    ensures SemverOf("libndb-" + v + SoExt, BufferSize, AsWritten) == None
    ensures SemverOf("libndb-" + v + SoExt, BufferSize, Intended) == Some(v)
  {
    var full := v + SoExt;
    LibraryFirstDigit(full);
    assert "libndb-" + v + SoExt == "libndb-" + full;
    StripExtSuffix(full, FailsafeExt);
    assert full[|full| - 1] == 'o' != FailsafeExt[|FailsafeExt| - 1];
    StripAppended(v, SoExt);
  }

  /** With the intended check, every name with a digit whose rest fits the
      buffer yields a version starting at that digit. */
  lemma IntendedExtractsEveryVersion(fn: string, size: nat)
    requires FirstDigit(fn) < |fn| && |fn| - FirstDigit(fn) < size
    ensures SemverOf(fn, size, Intended).Some?
    ensures SemverOf(fn, size, Intended).value[0] == fn[FirstDigit(fn)]
  {
    var rest := fn[FirstDigit(fn)..];
    assert |rest| > 0 && rest[0] == fn[FirstDigit(fn)] && rest[0] != '.';
    assert SemverOf(fn, size, Intended) == Some(StripExt(StripExt(rest, FailsafeExt), SoExt));
    StripBothSuffixes(rest);
  }

  /** The two checks differ only on a first digit `0` or `9`. */
  lemma ChecksAgreeOtherwise(fn: string, size: nat)
    requires FirstDigit(fn) < |fn| && fn[FirstDigit(fn)] != '0' && fn[FirstDigit(fn)] != '9'
    ensures SemverOf(fn, size, AsWritten) == SemverOf(fn, size, Intended)
  {
    var rest := fn[FirstDigit(fn)..];
    assert |rest| > 0 && rest[0] == fn[FirstDigit(fn)];
    InnerDigit(rest[0]);
    assert Rejects(AsWritten, rest) == Rejects(Intended, rest);
  }

  lemma InnerDigit(c: char)
    requires IsDigit(c) && c != '0' && c != '9'
    ensures '0' < c < '9'
  {
  }

  /** `ndb_extract_semver_from_fn`: skips to the first digit of `fn`, copies
      the rest into `semver` when it fits, then cuts `.failsafe` and `.so`
      off in place. Returns whether the result is non-null; the buffer then
      holds the version as a C string. */
  method ExtractSemverFromFn(fn: string, semver: array<char>, check: DigitCheck) returns (ok: bool)
    requires '\0' !in fn
    modifies semver
    ensures ok <==> SemverOf(fn, semver.Length, check).Some?
    ensures ok ==> var v := SemverOf(fn, semver.Length, check).value;
      |v| < semver.Length && semver[..|v|] == v && semver[|v|] == '\0'
    ensures !ok ==> semver[..] == old(semver[..])
  {
    var i := 0;
    while i < |fn| && !IsDigit(fn[i])
      invariant 0 <= i <= |fn|
      invariant forall k :: 0 <= k < i ==> !IsDigit(fn[k])
    {
      i := i + 1;
    }
    assert i == FirstDigit(fn);
    var c := if i < |fn| then fn[i] else '\0';
    var rejected := match check
      case AsWritten => c <= '0' || c >= '9'
      case Intended => c == '\0';
    if rejected {
      return false;
    }
    var n := |fn| - i;
    if n >= semver.Length {
      return false;
    }
    for k := 0 to n
      invariant semver[..k] == fn[i..i + k]
    {
      semver[k] := fn[i + k];
      assert semver[..k + 1] == semver[..k] + [fn[i + k]];
    }
    semver[n] := '\0';
    assert semver[..n] == fn[i..];
    var len := StripExtension(semver, n, FailsafeExt);
    len := StripExtension(semver, len, SoExt);
    ok := true;
  }

  /** Finds the last dot of the C string `semver[..len]` and, when the tail
      from it equals `ext`, ends the string there. */
  method StripExtension(semver: array<char>, len: nat, ext: string) returns (newLen: nat)
    requires len < semver.Length && semver[len] == '\0'
    modifies semver
    ensures newLen <= len && semver[newLen] == '\0'
    ensures semver[..newLen] == StripExt(old(semver[..len]), ext)
  {
    ghost var s := semver[..len];
    var d := len;
    while d > 0 && semver[d - 1] != '.'
      invariant 0 <= d <= len
      invariant forall k :: d <= k < len ==> s[k] != '.'
    {
      d := d - 1;
    }
    assert d - 1 == LastIndexOf(s, '.');
    if d > 0 && semver[d - 1..len] == ext {
      assert s[d - 1..] == ext;
      semver[d - 1] := '\0';
      newLen := d - 1;
      assert semver[..newLen] == s[..d - 1];
    } else {
      newLen := len;
    }
  }

  /** Whether `ndb_init` looks at a directory entry: a regular file whose
      name starts with `libndb`. */
  predicate Examined(isRegular: bool, name: string)
  {
    isRegular && StartsWith(name, LibPrefix)
  }

  /** The candidate versions, in directory order: those extracted from the
      examined entries. `ndb_init` judges a prefix of them (see
      `CheckVersions`). */
  function CandidateVersions(entries: seq<(bool, string)>, check: DigitCheck): seq<string>
  {
    if |entries| == 0 then []
    else
      var prev := CandidateVersions(entries[..|entries| - 1], check);
      var (isRegular, name) := entries[|entries| - 1];
      if Examined(isRegular, name) && SemverOf(name, BufferSize, check).Some? then
        prev + [SemverOf(name, BufferSize, check).value]
      else prev
  }

  /** Every candidate version comes from a regular `libndb` file and starts
      with a digit. */
  lemma {:induction false} ComparedFromLibraries(entries: seq<(bool, string)>, check: DigitCheck)
    ensures forall v :: v in CandidateVersions(entries, check) ==>
      |v| > 0 && IsDigit(v[0])
      && exists i :: (0 <= i < |entries| && Examined(entries[i].0, entries[i].1)
         && SemverOf(entries[i].1, BufferSize, check) == Some(v))
  {
    if |entries| > 0 {
      var n := |entries| - 1;
      ComparedFromLibraries(entries[..n], check);
      assert forall i :: 0 <= i < n ==> entries[..n][i] == entries[i];
      var (isRegular, name) := entries[n];
      SemverShape(name, BufferSize, check);
    }
  }

  /** What `semver_parse` and `semver_compare` make of a candidate against
      the running version: not a semantic version, greater, or not greater. */
  datatype Verdict = Unparsable | Greater | NotGreater

  /** How the directory loop ends: after every candidate, or stopped at one
      that does not parse ("does not contain a valid semantic version") or
      that is greater (the plug-in uninstalls itself). */
  datatype LoopEnd = Finished | InvalidVersion(bad: string) | GreaterFound(newer: string)

  /** The candidates the loop judged, in order, and how it ended. */
  datatype VersionCheck = VersionCheck(judged: seq<string>, end: LoopEnd)

  /** The directory loop of `ndb_init` over the candidate versions: each is
      judged in turn, and the first that is unparsable or greater stops the
      loop. */
  function CheckVersions(candidates: seq<string>, verdict: string -> Verdict): VersionCheck
  {
    if |candidates| == 0 then VersionCheck([], Finished)
    else
      var v := candidates[0];
      match verdict(v)
      case Unparsable => VersionCheck([v], InvalidVersion(v))
      case Greater => VersionCheck([v], GreaterFound(v))
      case NotGreater =>
        var rest := CheckVersions(candidates[1..], verdict);
        VersionCheck([v] + rest.judged, rest.end)
  }

  /** The loop judges a prefix of the candidates, all of them when it
      finishes. */
  lemma {:induction false} CheckVersionsPrefix(candidates: seq<string>, verdict: string -> Verdict)
    ensures var r := CheckVersions(candidates, verdict);
      && |r.judged| <= |candidates| && r.judged == candidates[..|r.judged|]
      && (r.end.Finished? ==> r.judged == candidates)
  {
    if |candidates| > 0 && verdict(candidates[0]) == NotGreater {
      var tail := candidates[1..];
      CheckVersionsPrefix(tail, verdict);
      var rest := CheckVersions(tail, verdict);
      assert candidates[..|rest.judged| + 1] == [candidates[0]] + tail[..|rest.judged|];
      assert rest.end.Finished? ==> [candidates[0]] + tail == candidates;
    }
  }

  /** The loop finishes exactly when no candidate is unparsable or greater. */
  lemma {:induction false} CheckVersionsFinishedIff(candidates: seq<string>, verdict: string -> Verdict)
    ensures CheckVersions(candidates, verdict).end.Finished? <==>
      forall k :: 0 <= k < |candidates| ==> verdict(candidates[k]) == NotGreater
  {
    if |candidates| > 0 && verdict(candidates[0]) == NotGreater {
      var tail := candidates[1..];
      CheckVersionsFinishedIff(tail, verdict);
      assert forall k :: 1 <= k < |candidates| ==> candidates[k] == tail[k - 1];
    }
  }

  /** A loop that stops, stops at the first unparsable or greater candidate,
      which names the ending, after judging only not-greater ones. */
  lemma {:induction false} CheckVersionsStopsAtFirst(candidates: seq<string>, verdict: string -> Verdict)
    ensures var r := CheckVersions(candidates, verdict);
      !r.end.Finished? ==>
        && 0 < |r.judged| <= |candidates|
        && (forall k :: 0 <= k < |r.judged| - 1 ==> verdict(candidates[k]) == NotGreater)
        && var last := candidates[|r.judged| - 1];
           && verdict(last) != NotGreater
           && r.end == if verdict(last) == Unparsable then InvalidVersion(last) else GreaterFound(last)
  {
    if |candidates| > 0 && verdict(candidates[0]) == NotGreater {
      var tail := candidates[1..];
      CheckVersionsStopsAtFirst(tail, verdict);
      var rest := CheckVersions(tail, verdict);
      if !rest.end.Finished? {
        assert candidates[|rest.judged|] == tail[|rest.judged| - 1];
        forall k | 1 <= k < |rest.judged|
          ensures verdict(candidates[k]) == NotGreater
        {
          assert candidates[k] == tail[k - 1];
        }
      }
    }
  }
}
