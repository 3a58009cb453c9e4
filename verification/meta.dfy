/**
 * `PackageInfo` of `_meta.py`: the API version tag, the one-line summary read from the
 * package metadata, and the shutdown banner. The installed distribution is an input: its
 * name, its version text, the major number of that version, and what reading each metadata
 * file gives.
 */
module Meta {
  import opened Wrappers
  import opened Text

  /** What `get_metadata_lines(name)` gives: the lines, or the exception it raises. */
  datatype MetadataRead = Lines(lines: seq<string>) | FileNotFound | ReadFailed

  /** The distribution `pkg_resources` found for the package. */
  datatype Distribution = Distribution(
    projectName: string, version: string, major: nat,
    metadata: MetadataRead, pkgInfo: MetadataRead)

  /** `api_prefix_path_tag`: "v" and the major version number. */
  function ApiPrefixPathTag(d: Distribution): string
  {
    "v" + NatStr(d.major)
  }

  /** The tag is "v" followed by digits only, and those digits read back as the major number. */
  lemma ApiPrefixPathTagRoundTrip(d: Distribution)
    ensures var tag := ApiPrefixPathTag(d);
      |tag| >= 2 && tag[0] == 'v'
      && (forall i :: 1 <= i < |tag| ==> IsDigit(tag[i]))
      && ParseNat(tag[1..]) == d.major
  {
    var tag := ApiPrefixPathTag(d);
    assert tag[1..] == NatStr(d.major);
    NatStrRoundTrip(d.major);
  }

  const SummaryKey := "Summary:"

  /** The first line starting with "Summary:", if any. */
  function FirstSummaryLine(lines: seq<string>): (r: Option<nat>)
    ensures r.Some? ==>
      r.value < |lines| && StartsWith(lines[r.value], SummaryKey)
      && forall k :: 0 <= k < r.value ==> !StartsWith(lines[k], SummaryKey)
    ensures r.None? ==> forall k :: 0 <= k < |lines| ==> !StartsWith(lines[k], SummaryKey)
  {
    if |lines| == 0 then None
    else if StartsWith(lines[0], SummaryKey) then Some(0)
    else
      match FirstSummaryLine(lines[1..])
      case None => None
      case Some(k) => Some(k + 1)
  }

  /** `line.split(":")[-1]`: what follows the last colon. */
  function LastField(line: string): (r: string)
    requires ':' in line
    ensures ':' !in r && EndsWith(line, r)
    ensures |r| < |line| && line[|line| - |r| - 1] == ':'
  {
    var i := LastIndexOf(line, ':');
    var r := line[i + 1..];
    assert line[|line| - |r|..] == r;
    r
  }

  /** The last field is the last part `Text.Split` gives. */
  lemma LastFieldIsLastPart(line: string)
    requires ':' in line
    ensures var parts := Split(line, ':');
      |parts| >= 1 && parts[|parts| - 1] == LastField(line)
  {
  }

  /** The summary a list of metadata lines gives: "" without a summary line (the suppressed `StopIteration`). */
  function SummaryIn(lines: seq<string>): string
  {
    match FirstSummaryLine(lines)
    case None => ""
    case Some(k) =>
      assert lines[k][..8] == SummaryKey && lines[k][7] == ':';
      LastField(lines[k])
  }

  /**
   * `get_summary`: METADATA is read first and PKG-INFO only when METADATA is missing; any
   * other failure, and a missing summary line, give "" because every exception is suppressed.
   */
  function GetSummary(d: Distribution): (r: string)
    ensures d.metadata.Lines? ==> r == SummaryIn(d.metadata.lines)
    ensures d.metadata.FileNotFound? && d.pkgInfo.Lines? ==> r == SummaryIn(d.pkgInfo.lines)
    ensures d.metadata.ReadFailed? || (d.metadata.FileNotFound? && !d.pkgInfo.Lines?) ==> r == ""
    ensures ':' !in r
  {
    var read := if d.metadata.FileNotFound? then d.pkgInfo else d.metadata;
    match read
    case Lines(lines) => SummaryIn(lines)
    case _ => ""
  }

  /**
   * A summary line without further colons gives back its text, leading space included; the
   * line is found however many lines without a summary precede it.
   */
  lemma {:induction false} SummaryRoundTrip(before: seq<string>, text: string, after: seq<string>)
    requires ':' !in text
    requires forall k :: 0 <= k < |before| ==> !StartsWith(before[k], SummaryKey)
    ensures SummaryIn(before + [SummaryKey + text] + after) == text
  {
    var lines := before + [SummaryKey + text] + after;
    var line := SummaryKey + text;
    assert line[..8] == SummaryKey;
    assert FirstSummaryLine(lines) == Some(|before|) by {
      assert lines[|before|] == line;
      assert forall k :: 0 <= k < |before| ==> lines[k] == before[k];
    }
    forall k | 8 <= k < |line| ensures line[k] != ':' {
      assert line[k] == text[k - 8];
    }
    LastSeparator(line, ':', 7);
  }

  /** Later colons cut the summary: only what follows the last one is kept. */
  lemma SummaryLosesEarlierFields(head: string, tail: string)
    requires ':' !in tail
    ensures SummaryIn([SummaryKey + head + ":" + tail]) == tail
  {
    var line := SummaryKey + head + ":" + tail;
    assert line[..8] == SummaryKey;
    var j := |SummaryKey + head|;
    forall k | j < k < |line| ensures line[k] != ':' {
      assert line[k] == tail[k - j - 1];
    }
    LastSeparator(line, ':', j);
  }

  /** The message the banner centres. */
  function FinishedMessage(d: Distribution): string
  {
    "\U{1F389} App " + d.projectName + "==" + d.version + " shutdown completed \U{1F389}"
  }

  /**
   * `get_finished_banner`: `"{:=^100}".format(message)`. The banner is 100 characters wide
   * with the message in the middle and '=' around it (the odd one on the right); a message of
   * 100 characters or more comes back as it is.
   */
  function FinishedBanner(d: Distribution): (r: string)
    ensures var m := FinishedMessage(d);
      var left := if |m| >= 100 then 0 else (100 - |m|) / 2;
      |r| == (if |m| >= 100 then |m| else 100)
      && r[left..left + |m|] == m
      && (forall i :: 0 <= i < left || left + |m| <= i < |r| ==> r[i] == '=')
      && left <= |r| - |m| - left <= left + 1
  {
    CenterLayout(FinishedMessage(d), 100, '=');
    Center(FinishedMessage(d), 100, '=')
  }
}
