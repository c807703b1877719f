/**
 * The parse block of streamlit_app.py (lines 160-179): the candidate JSON
 * text is cut out of the crew's raw output between the first `{` and the
 * last `}`, handed to the decoder, and the attempt ends in one of four
 * outcomes. `result_data` is the decoded value in the first outcome and
 * `None` in the other three.
 */
module OutputParser {
  import opened Wrappers
  import opened JsonValue
  import opened Strings

  /** What `crew_output.raw` holds: a string, or an object without a `find`
      method (such as None), on which `.find` raises AttributeError. */
  datatype RawOutput = Text(s: string) | NotText

  datatype Outcome =
    | Parsed(value: Json)              // json.loads returned a value
    | NotFound                         // "Could not find a valid JSON object"
    | DecodeFailed(error: DecodeError) // json.JSONDecodeError
    | NotAString                       // AttributeError: no string output

  /** `start_index`: the position of the first `{`, or -1. */
  function StartIndex(s: string): (r: int)
    ensures -1 <= r < |s|
    ensures r == -1 <==> '{' !in s
    ensures r >= 0 ==> s[r] == '{' && '{' !in s[..r]
  {
    Find(s, '{')
  }

  /** `end_index`: one past the position of the last `}`; 0 when there is none. */
  function EndIndex(s: string): (e: int)
    ensures e >= 0
  {
    RFind(s, '}') + 1
  }

  /** `json_part`, the text handed to the decoder once a `{` has been found. */
  function Candidate(s: string): (c: string)
    requires '{' in s
    ensures |c| <= |s|
    ensures c == "" <==> RFind(s, '}') < StartIndex(s)
    ensures c != "" ==> c[0] == '{' && c[|c| - 1] == '}'
  {
    Slice(s, StartIndex(s), EndIndex(s))
  }

  /** The outcome of the parse block, with the branches in the order the code tests them. */
  function Classify(raw: RawOutput, decode: Decoder): (o: Outcome)
    ensures o.NotAString? <==> raw.NotText?
    ensures o.NotFound? <==> raw.Text? && '{' !in raw.s
    ensures o.Parsed? ==> raw.Text? && '{' in raw.s && decode(Candidate(raw.s)) == Success(o.value)
    ensures o.DecodeFailed? ==> raw.Text? && '{' in raw.s && decode(Candidate(raw.s)) == Failure(o.error)
  {
    match raw
    case NotText => NotAString
    case Text(s) =>
      var start := StartIndex(s);
      var end := EndIndex(s);
      if start != -1 && end != -1 then
        match decode(Slice(s, start, end))
        case Success(v) => Parsed(v)
        case Failure(e) => DecodeFailed(e)
      else
        NotFound
  }

  /** `result_data` after the parse block. */
  function ResultData(o: Outcome): (r: Option<Json>)
    ensures r.Some? <==> o.Parsed?
  {
    if o.Parsed? then Some(o.value) else None
  }

  /** The guard `if result_data:` that decides whether the report is rendered. */
  predicate ShowsReport(o: Outcome): (b: bool)
    ensures b <==> o.Parsed? && Truthy(o.value)
  {
    ResultData(o).Some? && Truthy(ResultData(o).value)
  }

  /** When a `{` occurs before the last `}`, the candidate runs from the first `{`
      to the last `}` inclusive, and nothing outside it holds a further `{` or `}`
      that would have widened it. */
  lemma CandidateIsBracketed(s: string)
    requires '{' in s
    requires StartIndex(s) < RFind(s, '}')
    ensures Candidate(s) == s[StartIndex(s)..EndIndex(s)]
    ensures 2 <= |Candidate(s)| <= |s|
    ensures Candidate(s)[0] == '{' && Candidate(s)[|Candidate(s)| - 1] == '}'
    ensures '{' !in s[..StartIndex(s)] && '}' !in s[EndIndex(s)..]
  {
  }

  /** Leading prose without `{` and trailing prose without `}` are ignored:
      the candidate is exactly the embedded object text. */
  lemma NoiseIsIgnored(p: string, j: string, q: string)
    requires '{' !in p && '}' !in q
    requires |j| > 0 && j[0] == '{' && j[|j| - 1] == '}'
    ensures '{' in p + j + q
    ensures Candidate(p + j + q) == j
  {
    var s := p + j + q;
    assert s[|p|] == '{';
    assert s[..|p|] == p;
    var st := StartIndex(s);
    assert st == |p|;
    var last := |p| + |j| - 1;
    assert s[last] == '}';
    assert s[last + 1..] == q;
    var r := RFind(s, '}');
    assert r == last;
    assert s[|p|..last + 1] == j;
  }

  /** A well-formed JSON object surrounded by such prose is decoded on its own. */
  lemma EmbeddedObjectIsDecoded(p: string, j: string, q: string, decode: Decoder)
    requires '{' !in p && '}' !in q
    requires |j| > 0 && j[0] == '{' && j[|j| - 1] == '}'
    requires decode(j).Success?
    ensures Classify(Text(p + j + q), decode) == Parsed(decode(j).value)
  {
    NoiseIsIgnored(p, j, q);
  }

  /** The "could not find" branch is taken exactly when the text has no `{`;
      `end_index` is never -1, so a missing `}` alone never reaches it. */
  lemma NotFoundIffNoOpenBrace(s: string, decode: Decoder)
    ensures EndIndex(s) != -1
    ensures Classify(Text(s), decode) == NotFound <==> '{' !in s
  {
  }

  /** Without a `{` the decoder is never consulted: the outcome is the same for
      every decoder and leaves `result_data` as None. */
  lemma NotFoundIgnoresDecoder(s: string, d1: Decoder, d2: Decoder)
    requires '{' !in s
    ensures Classify(Text(s), d1) == Classify(Text(s), d2) == NotFound
    ensures ResultData(Classify(Text(s), d1)) == None
  {
  }

  /** With a `{` but no `}` after it (none at all, or only before the first `{`),
      the slice is empty and the decoder's error on "" is reported. */
  lemma UnclosedBraceIsDecodeError(s: string, decode: Decoder)
    requires '{' in s
    requires '}' !in s[StartIndex(s)..]
    requires decode("").Failure?
    ensures Candidate(s) == ""
    ensures Classify(Text(s), decode) == DecodeFailed(decode("").error)
  {
    var st := StartIndex(s);
    var r := RFind(s, '}');
    assert r < st;
  }

  /** Every error branch leaves `result_data` as None, so no report is rendered. */
  lemma ErrorsRenderNoReport(raw: RawOutput, decode: Decoder)
    ensures !Classify(raw, decode).Parsed? ==> ResultData(Classify(raw, decode)) == None
    ensures !Classify(raw, decode).Parsed? ==> !ShowsReport(Classify(raw, decode))
    ensures raw.NotText? ==> Classify(raw, decode) == NotAString
  {
  }

  /** With a decoder that behaves like `json.loads`, the report is rendered exactly
      when the candidate decoded to an object with at least one member; in
      particular a decoded `{}` renders nothing. */
  lemma ReportIffNonEmptyObject(raw: RawOutput, decode: Decoder)
    requires ValidDecoder(decode)
    ensures ShowsReport(Classify(raw, decode)) <==>
              Classify(raw, decode).Parsed? && Classify(raw, decode).value.JObject?
              && |Classify(raw, decode).value.members| > 0
    ensures Classify(raw, decode).Parsed? ==> Classify(raw, decode).value.JObject?
  {
  }
}
