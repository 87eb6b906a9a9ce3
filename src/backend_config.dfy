/**
 * The backend's settings (backend/app/core/config.py): their defaults and
 * the comma-separated list syntax used for API keys and the CORS lists.
 */
module BackendConfig {
  import opened Strings
  import opened Seqs

  const DefaultApiRateLimit := 1000
  const DefaultRateLimitWindowSeconds := 60
  const DefaultApiKeyHeader := "X-API-Key"
  const DefaultApiKeys := "smartpark-dev-key"
  const DefaultCorsAllowOrigins := "*"
  const DefaultCorsAllowMethods := "GET,POST,PUT,PATCH,DELETE,OPTIONS"
  const DefaultCorsAllowHeaders := "*"
  const DefaultMonitoringHistorySize := 300
  const DefaultErrorRateThreshold := 0.1
  const DefaultLatencyMsThreshold := 500.0
  const DefaultLowAvailabilityThreshold := 5
  const DefaultVisionFrameDir := "../vision/frames"

  /** Each piece with surrounding whitespace removed. */
  function StripAll(parts: seq<string>): (r: seq<string>)
    ensures |r| == |parts|
    ensures forall k :: 0 <= k < |r| ==> r[k] == Strip(parts[k])
  {
    seq(|parts|, k requires 0 <= k < |parts| => Strip(parts[k]))
  }

  function NonEmpty(s: string): bool
  {
    s != ""
  }

  /** `parse_csv_setting`: the stripped, non-empty pieces between commas. */
  function ParseCsv(raw: string): (items: seq<string>)
    ensures forall k :: 0 <= k < |items| ==> items[k] != ""
    ensures forall k :: 0 <= k < |items| ==> IsStripped(items[k])
    ensures forall k :: 0 <= k < |items| ==> Free(items[k], ',')
  {
    var stripped := StripAll(Split(raw, ','));
    StrippedPiecesFree(Split(raw, ','));
    FilterKeepsFree(stripped);
    Filter(stripped, NonEmpty)
  }

  /** Stripping a piece without separators leaves none. */
  lemma StripKeepsFree(s: string, sep: char)
    requires Free(s, sep)
    ensures Free(Strip(s), sep)
  {
    var i := StripIsSlice(s);
    var r := Strip(s);
    forall k | 0 <= k < |r|
      ensures r[k] != sep
    {
      assert r[k] == s[i + k];
    }
  }

  lemma StrippedPiecesFree(pieces: seq<string>)
    requires forall k :: 0 <= k < |pieces| ==> Free(pieces[k], ',')
    ensures forall k :: 0 <= k < |pieces| ==> Free(StripAll(pieces)[k], ',')
  {
    forall k | 0 <= k < |pieces|
      ensures Free(StripAll(pieces)[k], ',')
    {
      StripKeepsFree(pieces[k], ',');
    }
  }

  lemma FilterKeepsFree(stripped: seq<string>)
    requires forall k :: 0 <= k < |stripped| ==> Free(stripped[k], ',')
    ensures forall k :: 0 <= k < |Filter(stripped, NonEmpty)| ==> Free(Filter(stripped, NonEmpty)[k], ',')
  {
    var items := Filter(stripped, NonEmpty);
    forall k | 0 <= k < |items|
      ensures Free(items[k], ',')
    {
      assert items[k] in stripped;
      var j :| 0 <= j < |stripped| && stripped[j] == items[k];
    }
  }

  /** The items keep the order of the pieces they come from. */
  lemma ParseCsvKeepsOrder(raw: string)
    ensures IsSubsequence(ParseCsv(raw), StripAll(Split(raw, ',')))
  {
    FilterIsSubsequence(StripAll(Split(raw, ',')), NonEmpty);
  }

  /** A piece is an item exactly when it is not blank. */
  lemma ParseCsvKeepsEveryItem(raw: string, k: nat)
    requires k < |Split(raw, ',')|
    ensures Strip(Split(raw, ',')[k]) != "" ==> Strip(Split(raw, ',')[k]) in ParseCsv(raw)
  {
    assert StripAll(Split(raw, ','))[k] == Strip(Split(raw, ',')[k]);
  }

  lemma ParseCsvEmpty()
    ensures ParseCsv("") == []
  {
    assert Split("", ',') == [""];
    StripNoop("");
    assert StripAll([""]) == [""];
    assert Filter([""], NonEmpty) == [];
  }

  lemma StripAllNoop(items: seq<string>)
    requires forall k :: 0 <= k < |items| ==> IsStripped(items[k])
    ensures StripAll(items) == items
  {
    forall k | 0 <= k < |items|
      ensures Strip(items[k]) == items[k]
    {
      StripNoop(items[k]);
    }
  }

  /** A list of stripped, non-empty, comma-free items is read back from its comma join. */
  lemma ParseCsvJoin(items: seq<string>)
    requires forall k :: 0 <= k < |items| ==> items[k] != "" && IsStripped(items[k]) && Free(items[k], ',')
    ensures ParseCsv(Join(items, ',')) == items
  {
    if |items| == 0 {
      ParseCsvEmpty();
    } else {
      var joined := Join(items, ',');
      SplitJoin(items, ',');
      StripAllNoop(items);
      FilterAll(items, NonEmpty);
      calc {
        ParseCsv(joined);
        Filter(StripAll(Split(joined, ',')), NonEmpty);
        Filter(StripAll(items), NonEmpty);
        Filter(items, NonEmpty);
      }
    }
  }

  /** Re-parsing the comma join of a parse gives the same list. */
  lemma ParseCsvRoundTrip(raw: string)
    ensures ParseCsv(Join(ParseCsv(raw), ',')) == ParseCsv(raw)
  {
    ParseCsvJoin(ParseCsv(raw));
  }

  lemma SplitBlank()
    ensures Split(" , ", ',') == [" ", " "]
  {
    var blank := " , ";
    assert IndexOf(blank, ',') == 1;
    assert blank[..1] == " " && blank[2..] == " ";
    assert IndexOf(" ", ',') == -1;
  }

  lemma StripAllBlank()
    ensures StripAll([" ", " "]) == ["", ""]
  {
    var space := " ";
    assert IsSpace(space[0]);
    assert space[1..] == "";
    assert StripStart(space) == 1;
    assert Strip(space) == "";
  }

  lemma FilterBlank()
    ensures Filter(["", ""], NonEmpty) == []
  {
    var blanks: seq<string> := ["", ""];
    assert blanks[1..] == [""];
    assert blanks[1..][1..] == [];
  }

  /** An empty or blank setting gives no items. */
  lemma ParseCsvBlank()
    ensures ParseCsv("") == []
    ensures ParseCsv(" , ") == []
  {
    ParseCsvEmpty();
    SplitBlank();
    StripAllBlank();
    FilterBlank();
  }
}
