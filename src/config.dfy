/** Application settings and their defaults (backend/app/core/config.py). */
module Config {
  import opened Text

  /** The settings the modelled code reads. */
  datatype Settings = Settings(
    debug: bool,
    apiBaseUrl: string,
    wsMaxMessageSize: int,
    dataDir: string,
    minFaceSize: int,
    maxFaces: int,
    blurThreshold: real,
    brightnessMin: real,
    brightnessMax: real,
    expressionConfidenceThreshold: real,
    topK: int,
    similarityThreshold: real,
    corsOrigins: string,
    corsMethods: string)

  const Origin8000 := "http://localhost:8000"
  const Origin5173 := "http://localhost:5173"
  const Origin5500 := "http://localhost:5500"
  const Loopback5173 := "http://127.0.0.1:5173"

  const LocalOrigins: string := Origin8000 + "," + Origin5173
  const OtherOrigins: string := Origin5500 + "," + Loopback5173
  const DefaultCorsOrigins: string := LocalOrigins + "," + OtherOrigins

  /** `Settings()` with no environment overrides. */
  function Defaults(): Settings {
    Settings(
      debug := false,
      apiBaseUrl := "http://localhost:8000",
      wsMaxMessageSize := 10 * 1024 * 1024,
      dataDir := "data",
      minFaceSize := 80,
      maxFaces := 1,
      blurThreshold := 100.0,
      brightnessMin := 40.0,
      brightnessMax := 250.0,
      expressionConfidenceThreshold := 0.3,
      topK := 3,
      similarityThreshold := 0.4,
      corsOrigins := DefaultCorsOrigins,
      corsMethods := "*")
  }

  function StripAll(pieces: seq<string>): (r: seq<string>)
    ensures |r| == |pieces|
    ensures forall i :: 0 <= i < |r| ==> r[i] == Strip(pieces[i])
  {
    if pieces == [] then [] else [Strip(pieces[0])] + StripAll(pieces[1..])
  }

  /** The rule shared by `cors_origins_list` and `cors_methods_list`. */
  function ListSetting(raw: string): seq<string> {
    if raw == "" || raw == "*" then ["*"] else StripAll(SplitOn(raw, ","))
  }

  function CorsOriginsList(s: Settings): seq<string> {
    ListSetting(s.corsOrigins)
  }

  function CorsMethodsList(s: Settings): seq<string> {
    ListSetting(s.corsMethods)
  }

  /** An empty or "*" setting allows everything. */
  lemma ListSettingWildcard(raw: string)
    requires raw == "" || raw == "*"
    ensures ListSetting(raw) == ["*"]
  {
  }

  /** Otherwise there is one entry per comma-separated piece, in order
      (empty pieces included), each stripped and free of commas. */
  lemma ListSettingPieces(raw: string)
    requires raw != "" && raw != "*"
    ensures |ListSetting(raw)| == CountChar(raw, ',') + 1
    ensures forall i :: 0 <= i < |ListSetting(raw)| ==> ListSetting(raw)[i] == Strip(SplitOn(raw, ",")[i])
    ensures forall i :: 0 <= i < |ListSetting(raw)| ==> ',' !in ListSetting(raw)[i]
  {
    SplitCharPieces(raw, ',');
    var pieces := SplitOn(raw, ",");
    forall i | 0 <= i < |pieces| ensures ',' !in Strip(pieces[i]) {
      var t := Strip(pieces[i]);
      assert LStrip(pieces[i]) == pieces[i][|pieces[i]| - |LStrip(pieces[i])|..];
      forall j | 0 <= j < |t| ensures t[j] != ',' {
        var l := LStrip(pieces[i]);
        assert t[j] == l[j];
        assert l[j] == pieces[i][|pieces[i]| - |l| + j];
      }
    }
  }

  predicate CommaFree(s: string) {
    forall j :: 0 <= j < |s| ==> s[j] != ','
  }

  lemma JoinedCount(a: string, b: string)
    requires CountChar(a, ',') == 0 && CountChar(b, ',') == 0
    ensures CountChar(a + "," + b, ',') == 1
  {
    CountCharConcat(a + ",", b, ',');
    CountCharConcat(a, ",", ',');
    assert CountChar(",", ',') == 1;
  }

  /** Four comma-free pieces joined by commas make a four-entry list. */
  lemma FourPieces(a: string, b: string, c: string, d: string)
    requires CommaFree(a) && CommaFree(b) && CommaFree(c) && CommaFree(d)
    ensures |ListSetting((a + "," + b) + "," + (c + "," + d))| == 4
  {
    CountCharAbsent(a, ',');
    CountCharAbsent(b, ',');
    CountCharAbsent(c, ',');
    CountCharAbsent(d, ',');
    var left, right := a + "," + b, c + "," + d;
    JoinedCount(a, b);
    JoinedCount(c, d);
    CountCharConcat(left + ",", right, ',');
    CountCharConcat(left, ",", ',');
    assert CountChar(",", ',') == 1;
    var raw := left + "," + right;
    assert |raw| > 1;
    ListSettingPieces(raw);
  }

  /** The default origins setting yields four origins. */
  lemma DefaultOriginsCount()
    ensures |CorsOriginsList(Defaults())| == 4
  {
    assert CommaFree(Origin8000);
    assert CommaFree(Origin5173);
    assert CommaFree(Origin5500);
    assert CommaFree(Loopback5173);
    FourPieces(Origin8000, Origin5173, Origin5500, Loopback5173);
  }
}
