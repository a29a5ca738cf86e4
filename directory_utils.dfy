/**
 * `generateAnalysisDir`: the name of an analysis run's directory, made of the
 * run's ISO timestamp with every `:` and `.` turned into `-`, an underscore,
 * and the audio file's name. The clock is a parameter: `timestamp` is what
 * `new Date().toISOString()` returned.
 */
module DirectoryUtils {
  import opened JsValues

  /** The character class `[:.]` of the global replacement. */
  predicate IsSeparator(c: char) {
    c == ':' || c == '.'
  }

  function SanitizeChar(c: char): (d: char)
    ensures !IsSeparator(d)
    ensures IsSeparator(c) ==> d == '-'
    ensures !IsSeparator(c) ==> d == c
  {
    if IsSeparator(c) then '-' else c
  }

  /** `timestamp.replace(/[:.]/g, '-')`. */
  function Sanitize(s: string): (r: string)
    ensures |r| == |s|
  {
    if s == [] then [] else [SanitizeChar(s[0])] + Sanitize(s[1..])
  }

  /** The replacement works character by character: each separator becomes one `-`, nothing else moves. */
  lemma {:induction false} SanitizeAt(s: string, i: nat)
    requires i < |s|
    ensures Sanitize(s)[i] == SanitizeChar(s[i])
    decreases i
  {
    if i > 0 {
      SanitizeAt(s[1..], i - 1);
    }
  }

  lemma SanitizePointwise(s: string)
    ensures forall i :: 0 <= i < |s| ==> Sanitize(s)[i] == SanitizeChar(s[i])
  {
    forall i | 0 <= i < |s|
      ensures Sanitize(s)[i] == SanitizeChar(s[i])
    {
      SanitizeAt(s, i);
    }
  }

  /** No `:` or `.` survives the replacement. */
  lemma NoSeparatorLeft(s: string)
    ensures forall i :: 0 <= i < |Sanitize(s)| ==> !IsSeparator(Sanitize(s)[i])
  {
    SanitizePointwise(s);
  }

  /** Replacing a second time changes nothing. */
  lemma SanitizeIdempotent(s: string)
    ensures Sanitize(Sanitize(s)) == Sanitize(s)
  {
    SanitizePointwise(s);
    SanitizePointwise(Sanitize(s));
  }

  /** A string without `:` or `.` is left as it is. */
  lemma SanitizeKeepsClean(s: string)
    requires forall i :: 0 <= i < |s| ==> !IsSeparator(s[i])
    ensures Sanitize(s) == s
  {
    SanitizePointwise(s);
  }

  /** `${timestamp}_${fileName}` with the timestamp sanitised. */
  function GenerateAnalysisDir(timestamp: string, fileName: string): (r: string)
    ensures |r| == |timestamp| + 1 + |fileName|
    ensures forall i :: 0 <= i < |timestamp| ==> r[i] == SanitizeChar(timestamp[i])
    ensures forall i :: 0 <= i < |timestamp| ==> !IsSeparator(r[i])
    ensures r[|timestamp|] == '_'
    ensures r[|timestamp| + 1..] == fileName
  {
    SanitizePointwise(timestamp);
    Sanitize(timestamp) + "_" + fileName
  }

  /** What follows the first underscore of a directory name, if it has one. */
  function FileNameOf(dir: string): (f: Option<string>)
    ensures f.Some? ==> |f.value| < |dir|
  {
    if dir == [] then None
    else if dir[0] == '_' then Some(dir[1..])
    else FileNameOf(dir[1..])
  }

  /**
   * The file name is appended verbatim and can be read back: an ISO timestamp
   * has no underscore, so the first one in the name is the one added.
   */
  lemma {:induction false} FileNameRoundTrip(timestamp: string, fileName: string)
    requires forall i :: 0 <= i < |timestamp| ==> timestamp[i] != '_'
    ensures FileNameOf(GenerateAnalysisDir(timestamp, fileName)) == Some(fileName)
    decreases |timestamp|
  {
    var dir := GenerateAnalysisDir(timestamp, fileName);
    if timestamp == [] {
      assert dir == "_" + fileName;
    } else {
      assert dir[0] == SanitizeChar(timestamp[0]) != '_';
      FileNameRoundTrip(timestamp[1..], fileName);
      assert dir[1..] == GenerateAnalysisDir(timestamp[1..], fileName);
    }
  }
}
