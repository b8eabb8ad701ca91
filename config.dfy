/** The settings of class Config: the constants, and the ADMIN_IDS list read
    from the environment. Loading the .env file and the diagnostic prints are
    not part of this model; the environment value is an input. */
module Config {
  import opened Wrappers
  import opened Text

  /** COMMAND_TIMEOUT, in seconds: the default timeout of a command run. */
  const CommandTimeout: nat := 30

  /** MONITORING_INTERVAL, in seconds (read by nothing in the core). */
  const MonitoringInterval: nat := 60

  /** SERVICES: name and address of each external service, in the dict's
      insertion order. */
  const Services: seq<(string, string)> := [
    ("website", "https://onex01.ru"),
    ("cloud", "https://cloud.onex01.ru"),
    ("minecraft", "onex01.ddns.net:25565")
  ]

  /** What the loop makes of one comma-separated piece: int(piece.strip()),
      or None where int() raises ValueError. */
  function AdminIdOf(piece: string): Option<int>
  {
    ParseInt(Strip(piece))
  }

  /** Each piece as the loop reads it, in order. */
  function ParsedPieces(pieces: seq<string>): seq<Option<int>>
  {
    seq(|pieces|, k requires 0 <= k < |pieces| => AdminIdOf(pieces[k]))
  }

  /** The pieces whose parse is absent, in order: those the loop warns about. */
  function Rejected(pieces: seq<string>, parsed: seq<Option<int>>): (bad: seq<string>)
    requires |pieces| == |parsed|
    ensures |bad| + |Present(parsed)| == |parsed|
  {
    if pieces == [] then []
    else
      var front := Rejected(pieces[..|pieces| - 1], parsed[..|parsed| - 1]);
      if parsed[|parsed| - 1].None? then front + [pieces[|pieces| - 1]] else front
  }

  lemma RejectedSnoc(pieces: seq<string>, parsed: seq<Option<int>>, p: string, x: Option<int>)
    requires |pieces| == |parsed|
    ensures Rejected(pieces + [p], parsed + [x]) == Rejected(pieces, parsed) + (if x.None? then [p] else [])
  {
    assert (pieces + [p])[..|pieces|] == pieces;
    assert (parsed + [x])[..|parsed|] == parsed;
  }

  lemma ParsedPiecesSnoc(pieces: seq<string>, i: nat)
    requires i < |pieces|
    ensures ParsedPieces(pieces[..i + 1]) == ParsedPieces(pieces[..i]) + [AdminIdOf(pieces[i])]
  {
  }

  /** What one more turn of the loop adds to the identifiers. */
  lemma AdminIdsStep(pieces: seq<string>, i: nat)
    requires i < |pieces|
    ensures Present(ParsedPieces(pieces[..i + 1])) ==
      Present(ParsedPieces(pieces[..i])) + (if AdminIdOf(pieces[i]).Some? then [AdminIdOf(pieces[i]).value] else [])
  {
    ParsedPiecesSnoc(pieces, i);
    PresentSnoc(ParsedPieces(pieces[..i]), AdminIdOf(pieces[i]));
  }

  /** What one more turn of the loop adds to the warnings. */
  lemma RejectedStep(pieces: seq<string>, i: nat)
    requires i < |pieces|
    ensures Rejected(pieces[..i + 1], ParsedPieces(pieces[..i + 1])) ==
      Rejected(pieces[..i], ParsedPieces(pieces[..i])) + (if AdminIdOf(pieces[i]).None? then [pieces[i]] else [])
  {
    var front := pieces[..i];
    assert pieces[..i + 1] == front + [pieces[i]];
    ParsedPiecesSnoc(pieces, i);
    RejectedSnoc(front, ParsedPieces(front), pieces[i], AdminIdOf(pieces[i]));
  }

  /** The identifiers parsed from the pieces, in order, unparsable pieces skipped. */
  function AdminIds(pieces: seq<string>): (ids: seq<int>)
  {
    Present(ParsedPieces(pieces))
  }

  /** The pieces the loop visits: none for a missing or empty variable (a
      missing variable reads as the empty string), else the comma-separated
      pieces. */
  function PiecesOf(env: Option<string>): seq<string>
  {
    var value := if env.Some? then env.value else "";
    if value == [] then [] else SplitOn(value, ',')
  }

  /** The ADMIN_IDS list for the value of the environment variable. */
  function AdminIdsOf(env: Option<string>): (ids: seq<int>)
    ensures |ids| <= |PiecesOf(env)|
    ensures env.None? || env == Some("") ==> ids == []
  {
    AdminIds(PiecesOf(env))
  }

  /** The ADMIN_IDS loop: split on commas, strip and parse each piece, append
      the parsed identifiers in order and warn about each piece that does not
      parse. */
  method ParseAdminIds(env: Option<string>) returns (ids: seq<int>, invalid: seq<string>)
    ensures ids == AdminIdsOf(env)
    ensures invalid == Rejected(PiecesOf(env), ParsedPieces(PiecesOf(env)))
    ensures |ids| + |invalid| == |PiecesOf(env)|
  {
    var pieces := PiecesOf(env);
    ids, invalid := [], [];
    var i := 0;
    while i < |pieces|
      invariant 0 <= i <= |pieces|
      invariant ids == Present(ParsedPieces(pieces[..i]))
      invariant invalid == Rejected(pieces[..i], ParsedPieces(pieces[..i]))
    {
      var parsed := AdminIdOf(pieces[i]);
      AdminIdsStep(pieces, i);
      RejectedStep(pieces, i);
      if parsed.Some? {
        ids := ids + [parsed.value];
      } else {
        invalid := invalid + [pieces[i]];
      }
      i := i + 1;
    }
    assert pieces[..i] == pieces;
    assert |ParsedPieces(pieces)| == |pieces|;
  }

  /** An identifier is an admin exactly when some piece parses to it. */
  lemma AdminIdsMembership(pieces: seq<string>, id: int)
    ensures id in AdminIds(pieces) <==> exists k :: 0 <= k < |pieces| && AdminIdOf(pieces[k]) == Some(id)
  {
    var parsed := ParsedPieces(pieces);
    assert |parsed| == |pieces|;
    PresentMembership(parsed, id);
    if Some(id) in parsed {
      var k :| 0 <= k < |parsed| && parsed[k] == Some(id);
      assert AdminIdOf(pieces[k]) == Some(id);
    }
    if exists k :: 0 <= k < |pieces| && AdminIdOf(pieces[k]) == Some(id) {
      var k :| 0 <= k < |pieces| && AdminIdOf(pieces[k]) == Some(id);
      assert parsed[k] == Some(id);
    }
  }

  /** The ids printed in decimal, one string each. */
  function IdStrings(ids: seq<int>): seq<string>
  {
    seq(|ids|, k requires 0 <= k < |ids| => IntToString(ids[k]))
  }

  lemma AdminIdsOfPrinted(ids: seq<int>)
    ensures AdminIds(IdStrings(ids)) == ids
  {
    var strs := IdStrings(ids);
    forall k | 0 <= k < |ids| ensures AdminIdOf(strs[k]) == Some(ids[k]) {
      IntToStringIsWord(ids[k]);
      StripUnchanged(strs[k]);
      ParseIntToString(ids[k]);
    }
    PresentOfAllSome(ParsedPieces(strs), ids);
  }

  /** Writing a list of identifiers the way the variable is meant to be set
      ("1,2,3") and reading it back gives the same list. */
  lemma AdminIdsRoundTrip(ids: seq<int>)
    ensures AdminIdsOf(Some(Join(IdStrings(ids), ","))) == ids
    ensures |PiecesOf(Some(Join(IdStrings(ids), ",")))| == |ids|
  {
    var strs := IdStrings(ids);
    if ids != [] {
      forall k | 0 <= k < |strs| ensures ',' !in strs[k] {
        IntToStringIsWord(ids[k]);
      }
      SplitOnJoin(strs, ',');
      assert Join(strs, ",") != [] by {
        if |strs| == 1 { assert Join(strs, ",") == strs[0]; }
      }
      AdminIdsOfPrinted(ids);
    }
  }
}
