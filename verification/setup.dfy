/** Reading the server configuration (the `__main__` block of server.py):
    each section named `object...` becomes a static-object frame, each
    `obstruction...` an obstruction frame unless its geometry is unknown,
    and each `mark...` a race mark, whose score must be an integer or
    'finish'. Any other section is ignored.

    A section is its name and its key/value settings. Python's float() on a
    setting is `codec.number`; the cosine and sine of a mark's radial come
    from `heading`. */
module Setup {
  import opened Wrappers
  import opened Wire
  import opened Frames
  import SailMark

  datatype Section = Section(sname: string, get: map<string, string>)

  /** Why reading the configuration stops: a ValueError from a number, a
      triple or a score, or a UnicodeEncodeError from a non-ASCII name. */
  datatype ConfigError = BadValue(section: string, key: string) | BadScore(section: string) | NotAscii(section: string)

  /** The frames sent to every newcomer and the race marks, in file order. */
  datatype Setting = Setting(config: seq<string>, marks: seq<SailMark.RaceMark>)

  predicate StartsWith(s: string, prefix: string) {
    |prefix| <= |s| && s[..|prefix|] == prefix
  }

  /** `sprox.get(key, fallback=...)`. */
  function Get(sec: Section, key: string, fallback: string): string {
    if key in sec.get then sec.get[key] else fallback
  }

  /** `sprox.getfloat(key, fallback=...)`. */
  function GetFloat(sec: Section, key: string, fallback: real, codec: Codec): (r: Result<real, ConfigError>)
    ensures key !in sec.get ==> r == Ok(fallback)
    ensures key in sec.get ==> (r.Ok? <==> codec.number(sec.get[key]).Some?)
    ensures key in sec.get && r.Ok? ==> r.value == codec.number(sec.get[key]).value
  {
    if key !in sec.get then Ok(fallback)
    else match codec.number(sec.get[key])
      case Some(v) => Ok(v)
      case None => Err(BadValue(sec.sname, key))
  }

  /** The name setting, or the section name after its prefix. */
  function NameOf(sec: Section, prefix: string): string
    requires StartsWith(sec.sname, prefix)
  {
    Get(sec, "name", sec.sname[|prefix|..])
  }

  /** `text.split(',')`. */
  function Commas(text: string): (parts: seq<string>)
    ensures |parts| >= 1
    ensures forall i :: 0 <= i < |parts| ==> ',' !in parts[i]
    decreases |text|
  {
    if |text| == 0 then [""]
    else
      var rest := Commas(text[1..]);
      if text[0] == ',' then [""] + rest
      else [[text[0]] + rest[0]] + rest[1..]
  }

  /** `a, b, c = map(float, text.split(','))`: exactly three numbers. */
  function Triple(sec: Section, key: string, fallback: string, codec: Codec): (r: Result<seq<real>, ConfigError>)
    ensures r.Ok? ==> |r.value| == 3
    ensures r.Ok? <==> |Commas(Get(sec, key, fallback))| == 3
                       && forall i :: 0 <= i < 3 ==> codec.number(Commas(Get(sec, key, fallback))[i]).Some?
  {
    var parts := Commas(Get(sec, key, fallback));
    if |parts| != 3 then Err(BadValue(sec.sname, key))
    else match (codec.number(parts[0]), codec.number(parts[1]), codec.number(parts[2]))
      case (Some(a), Some(b), Some(c)) => Ok([a, b, c])
      case _ => Err(BadValue(sec.sname, key))
  }

  /** The geometries the collision model handles. */
  predicate KnownGeom(geom: string) {
    geom in {"sphere", "capsule", "cylinder", "box"}
  }

  /** `score = int(score)`, keeping the text 'finish'; an absent score is
      the integer 0. Any other text raises. */
  function ScoreOf(sec: Section): (r: Result<SailMark.Score, ConfigError>)
    ensures "score" !in sec.get ==> r == Ok(SailMark.Points(0))
    ensures "score" in sec.get && ParseInt(sec.get["score"]).Some? ==>
      r == Ok(SailMark.Points(ParseInt(sec.get["score"]).value))
    ensures "score" in sec.get && ParseInt(sec.get["score"]).None? ==>
      (r.Ok? <==> sec.get["score"] == "finish") && (r.Ok? ==> r.value == SailMark.Finish)
  {
    if "score" !in sec.get then Ok(SailMark.Points(0))
    else
      var text := sec.get["score"];
      match ParseInt(text)
      case Some(n) => Ok(SailMark.Points(n))
      case None => if text == "finish" then Ok(SailMark.Finish) else Err(BadScore(sec.sname))
  }

  /** A score written as an integer or as 'finish' reads back as itself. */
  lemma ScoreRoundTrip(sname: string, n: int)
    ensures ScoreOf(Section(sname, map["score" := Decimal(n)])) == Ok(SailMark.Points(n))
    ensures ScoreOf(Section(sname, map["score" := "finish"])) == Ok(SailMark.Finish)
  {
    ParseDecimal(n);
    TrimIdle("finish");
  }

  /** An `object...` section: 'L<name>:' and the packed (x, y, z, psi). */
  function ObjectEntry(sec: Section, codec: Codec): (r: Result<string, ConfigError>)
    requires StartsWith(sec.sname, "object")
    ensures r.Ok? ==> IsAscii(NameOf(sec, "object"))
    ensures r.Ok? ==> exists xs :: |xs| == 4 && r.value == ObjectFrame(NameOf(sec, "object"), codec.pack(xs))
  {
    var x :- GetFloat(sec, "x", 0.0, codec);
    var y :- GetFloat(sec, "y", 0.0, codec);
    var z :- GetFloat(sec, "z", 0.0, codec);
    var psi :- GetFloat(sec, "psi", 0.0, codec);
    var name := NameOf(sec, "object");
    if !IsAscii(name) then Err(NotAscii(sec.sname))
    else Ok(ObjectFrame(name, codec.pack([x, y, z, psi])))
  }

  /** An `obstruction...` section: 'O<name>:<geom>:' and the packed
      position, size and orientation; None (skipped) when the geometry is
      missing or unknown, which is checked only after every number has
      been read. */
  function ObstructionEntry(sec: Section, codec: Codec): (r: Result<Option<string>, ConfigError>)
    requires StartsWith(sec.sname, "obstruction")
    ensures r.Ok? && r.value.Some? ==> "geom" in sec.get && KnownGeom(sec.get["geom"])
    ensures r.Ok? && r.value.Some? ==>
      exists xs :: |xs| == 9 && r.value.value == ObstructionFrame(NameOf(sec, "obstruction"), sec.get["geom"], codec.pack(xs))
    ensures r.Ok? && ("geom" !in sec.get || !KnownGeom(sec.get["geom"])) ==> r.value.None?
  {
    var name := NameOf(sec, "obstruction");
    var x :- GetFloat(sec, "x", 0.0, codec);
    var y :- GetFloat(sec, "y", 0.0, codec);
    var z :- GetFloat(sec, "z", 0.0, codec);
    var size :- Triple(sec, "size", "1,1,1", codec);
    var orientation :- Triple(sec, "orientation", "0,0,0", codec);
    if "geom" !in sec.get || !KnownGeom(sec.get["geom"]) then Ok(None)
    else if !IsAscii(name) then Err(NotAscii(sec.sname))
    else
      var xs := [x, y, z] + size + orientation;
      Ok(Some(ObstructionFrame(name, sec.get["geom"], codec.pack(xs))))
  }

  /** A `mark...` section: a race mark with rounding 'cw', distance 100,
      radial 0 and score 0 unless set. */
  function MarkEntry(sec: Section, codec: Codec, heading: real -> (real, real)): (r: Result<SailMark.RaceMark, ConfigError>)
    requires StartsWith(sec.sname, "mark")
    ensures r.Ok? ==> r.value.name == NameOf(sec, "mark") && r.value.info == Get(sec, "info", "No information")
    ensures r.Ok? ==> r.value.rounding == SailMark.RoundingOf(Get(sec, "rounding", "cw"))
    ensures r.Ok? ==> ScoreOf(sec) == Ok(r.value.score)
    ensures ScoreOf(sec).Err? ==> r.Err?
    // the mark stands at the configured point, with its band along the radial
    ensures r.Ok? ==> GetFloat(sec, "x", 0.0, codec) == Ok(r.value.x) && GetFloat(sec, "y", 0.0, codec) == Ok(r.value.y)
    ensures r.Ok? ==> GetFloat(sec, "distance", 100.0, codec) == Ok(r.value.distance)
    ensures r.Ok? ==> r.value.lineeq.At(r.value.x, r.value.y) == 0.0
    ensures r.Ok? ==> r.value.area2.At(r.value.x, r.value.y) == r.value.distance
    ensures r.Ok? ==>
      r.value.area1.At(r.value.x, r.value.y) == (if r.value.rounding == SailMark.Near then r.value.distance else 0.0)
    ensures r.Ok? ==>
      && GetFloat(sec, "radial", 0.0, codec).Ok?
      && r.value.area2.a == -heading(GetFloat(sec, "radial", 0.0, codec).value).0
      && r.value.area2.b == -heading(GetFloat(sec, "radial", 0.0, codec).value).1
    // the section is refused exactly when a number or the score does not read
    ensures r.Ok? <==>
      && GetFloat(sec, "x", 0.0, codec).Ok? && GetFloat(sec, "y", 0.0, codec).Ok?
      && GetFloat(sec, "radial", 0.0, codec).Ok? && GetFloat(sec, "distance", 100.0, codec).Ok?
      && ScoreOf(sec).Ok?
  {
    var name := NameOf(sec, "mark");
    var x :- GetFloat(sec, "x", 0.0, codec);
    var y :- GetFloat(sec, "y", 0.0, codec);
    var radial :- GetFloat(sec, "radial", 0.0, codec);
    var distance :- GetFloat(sec, "distance", 100.0, codec);
    var rounding := Get(sec, "rounding", "cw");
    var info := Get(sec, "info", "No information");
    var score :- ScoreOf(sec);
    var (cpsi, spsi) := heading(radial);
    Ok(SailMark.NewMark(name, x, y, cpsi, spsi, distance, SailMark.RoundingOf(rounding), score, info))
  }

  /** A mark section that sets only its position gets every default: the
      name after 'mark', radial 0, distance 100, clockwise rounding, score 0
      and the stock info text. */
  lemma MarkSectionDefaults(suffix: string, tx: string, ty: string, x: real, y: real, codec: Codec,
                            heading: real -> (real, real))
    requires codec.number(tx) == Some(x) && codec.number(ty) == Some(y)
    ensures MarkEntry(Section("mark" + suffix, map["x" := tx, "y" := ty]), codec, heading)
      == Ok(SailMark.NewMark(suffix, x, y, heading(0.0).0, heading(0.0).1, 100.0,
                             SailMark.Cw, SailMark.Points(0), "No information"))
  {
    var sec := Section("mark" + suffix, map["x" := tx, "y" := ty]);
    assert StartsWith(sec.sname, "mark") && sec.sname[4..] == suffix;
    assert NameOf(sec, "mark") == suffix;
    assert SailMark.RoundingOf("cw") == SailMark.Cw;
  }

  /** What one section adds to the setting. */
  function Read(s: Setting, sec: Section, codec: Codec, heading: real -> (real, real)): (r: Result<Setting, ConfigError>)
    ensures r.Ok? ==> s.config <= r.value.config && s.marks <= r.value.marks
    ensures r.Ok? ==> |r.value.config| <= |s.config| + 1 && |r.value.marks| <= |s.marks| + 1
    ensures r.Ok? && StartsWith(sec.sname, "object") ==>
      r.value.marks == s.marks && |r.value.config| == |s.config| + 1
    ensures r.Ok? && StartsWith(sec.sname, "obstruction") ==> r.value.marks == s.marks
    ensures (r.Ok? && StartsWith(sec.sname, "mark") && !StartsWith(sec.sname, "object")
             && !StartsWith(sec.sname, "obstruction")) ==>
      r.value.config == s.config && |r.value.marks| == |s.marks| + 1
    ensures (!StartsWith(sec.sname, "object") && !StartsWith(sec.sname, "obstruction")
             && !StartsWith(sec.sname, "mark")) ==> r == Ok(s)
  {
    if StartsWith(sec.sname, "object") then
      var f :- ObjectEntry(sec, codec);
      Ok(s.(config := s.config + [f]))
    else if StartsWith(sec.sname, "obstruction") then
      var f :- ObstructionEntry(sec, codec);
      if f.Some? then Ok(s.(config := s.config + [f.value])) else Ok(s)
    else if StartsWith(sec.sname, "mark") then
      var m :- MarkEntry(sec, codec, heading);
      Ok(s.(marks := s.marks + [m]))
    else Ok(s)
  }

  /** The loop over `config.items()`: sections in file order, the first
      error ending it. */
  function Configure(sections: seq<Section>, codec: Codec, heading: real -> (real, real)): (r: Result<Setting, ConfigError>)
  {
    ReadAll(Setting([], []), sections, codec, heading)
  }

  function ReadAll(s: Setting, sections: seq<Section>, codec: Codec, heading: real -> (real, real)): (r: Result<Setting, ConfigError>)
    ensures r.Ok? ==> s.config <= r.value.config && s.marks <= r.value.marks
    ensures r.Ok? ==> |r.value.config| + |r.value.marks| <= |s.config| + |s.marks| + |sections|
    decreases |sections|
  {
    if |sections| == 0 then Ok(s)
    else
      var s1 :- Read(s, sections[0], codec, heading);
      ReadAll(s1, sections[1..], codec, heading)
  }

  /** Reading a file in two parts is reading the first part and going on
      from its setting: each section only ever appends. */
  lemma {:induction false} ReadAllConcat(s: Setting, a: seq<Section>, b: seq<Section>, codec: Codec,
                                         heading: real -> (real, real))
    ensures ReadAll(s, a + b, codec, heading) ==
      match ReadAll(s, a, codec, heading)
      case Ok(s1) => ReadAll(s1, b, codec, heading)
      case Err(e) => Err(e)
    decreases |a|
  {
    if |a| == 0 {
      assert a + b == b;
    } else {
      assert (a + b)[0] == a[0] && (a + b)[1..] == a[1..] + b;
      match Read(s, a[0], codec, heading)
      case Ok(s1) => ReadAllConcat(s1, a[1..], b, codec, heading);
      case Err(_) =>
    }
  }

  /** A mark section whose score is neither an integer nor 'finish' stops
      the server from starting, wherever it sits in the file. */
  lemma {:induction false} BadScoreStops(s: Setting, sections: seq<Section>, k: nat, codec: Codec,
                                         heading: real -> (real, real))
    requires k < |sections|
    requires StartsWith(sections[k].sname, "mark")
    requires !StartsWith(sections[k].sname, "object") && !StartsWith(sections[k].sname, "obstruction")
    requires ScoreOf(sections[k]).Err?
    ensures ReadAll(s, sections, codec, heading).Err?
    decreases k
  {
    if k == 0 {
      assert Read(s, sections[0], codec, heading).Err?;
    } else {
      match Read(s, sections[0], codec, heading)
      case Ok(s1) =>
        assert sections[1..][k - 1] == sections[k];
        BadScoreStops(s1, sections[1..], k - 1, codec, heading);
      case Err(_) =>
    }
  }
}
