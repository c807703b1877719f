/**
 * The report built from a decoded object (streamlit_app.py lines 182-219):
 * the on-screen source links, the markdown text offered for download and
 * its file name. `show` stands for the f-string rendering of a decoded value.
 */
module Briefing {
  import opened Wrappers
  import opened JsonValue
  import opened Strings

  /** `result_data.get('final_sources', [])`. */
  function SourcesOf(result: seq<Member>): (r: Json)
    ensures Get(result, "final_sources").None? ==> r == JArray([])
    ensures Get(result, "final_sources").Some? ==> r == Get(result, "final_sources").value
  {
    GetOr(result, "final_sources", JArray([]))
  }

  /** `source.get('title', 'Source Link')`: the default applies only when the key is missing. */
  function Title(source: seq<Member>): (r: Json)
    ensures Get(source, "title").None? ==> r == JString("Source Link")
    ensures Get(source, "title").Some? ==> r == Get(source, "title").value
  {
    GetOr(source, "title", JString("Source Link"))
  }

  /** `source.get('url')`: None when the key is missing. */
  function Url(source: seq<Member>): (r: Json)
    ensures Get(source, "url").None? ==> r == JNull
    ensures Get(source, "url").Some? ==> r == Get(source, "url").value
  {
    GetOr(source, "url", JNull)
  }

  /** The on-screen line for one source: present only when its url is truthy. */
  function LinkLine(source: seq<Member>, show: Formatter): (r: seq<string>)
    ensures |r| <= 1
    ensures |r| == 1 <==> Truthy(Url(source))
    ensures r != [] ==> r[0] + "\n" == Bullet(source, show)
  {
    if Truthy(Url(source)) then ["- [" + show(Title(source)) + "](" + show(Url(source)) + ")"] else []
  }

  /** Every element is a dict, so `source.get` succeeds on each. */
  predicate AllObjects(items: seq<Json>)
  {
    forall i :: 0 <= i < |items| ==> items[i].JObject?
  }

  /** The lines the on-screen loop emits over `items`, in order, up to the first
      element that is not a dict (where `.get` raises). */
  function LinkLines(items: seq<Json>, show: Formatter): (r: seq<string>)
    ensures |r| <= |items|
  {
    if |items| == 0 then []
    else if items[0].JObject? then LinkLine(items[0].members, show) + LinkLines(items[1..], show)
    else []
  }

  /** Both source loops run to completion: either the sources are falsy (and not
      iterated), or they are a list of dicts. A truthy string, dict, number or
      boolean yields no dicts (or is not iterable) and raises on the first step. */
  predicate Walkable(sources: Json): (b: bool)
    ensures !Truthy(sources) ==> b
    ensures b && Truthy(sources) ==> sources.JArray?
    ensures sources.JArray? && |sources.items| > 0 ==> (b <==> AllObjects(sources.items))
  {
    !Truthy(sources) || (sources.JArray? && AllObjects(sources.items))
  }

  lemma {:induction false} LinkLinesAppend(a: seq<Json>, b: seq<Json>, show: Formatter)
    requires AllObjects(a)
    ensures LinkLines(a + b, show) == LinkLines(a, show) + LinkLines(b, show)
  {
    if |a| == 0 {
      assert a + b == b;
    } else {
      assert (a + b)[1..] == a[1..] + b;
      LinkLinesAppend(a[1..], b, show);
    }
  }

  /** Extending a walked prefix by one more dict adds that dict's line. */
  lemma LinkLinesSnoc(items: seq<Json>, i: nat, show: Formatter)
    requires i < |items| && AllObjects(items[..i]) && items[i].JObject?
    ensures AllObjects(items[..i + 1])
    ensures LinkLines(items[..i + 1], show) == LinkLines(items[..i], show) + LinkLine(items[i].members, show)
  {
    assert items[..i + 1] == items[..i] + [items[i]];
    LinkLinesAppend(items[..i], [items[i]], show);
  }

  /** The first element that is not a dict ends the on-screen lines. */
  lemma LinkLinesStop(items: seq<Json>, i: nat, show: Formatter)
    requires i < |items| && AllObjects(items[..i]) && !items[i].JObject?
    ensures !AllObjects(items)
    ensures LinkLines(items, show) == LinkLines(items[..i], show)
  {
    assert items == items[..i] + items[i..];
    LinkLinesAppend(items[..i], items[i..], show);
  }

  /** The loop of lines 197-201 over a list: `crashed` means some element is
      not a dict, and `lines` are those emitted before it. */
  method ListLinks(items: seq<Json>, show: Formatter) returns (lines: seq<string>, crashed: bool)
    ensures crashed <==> !AllObjects(items)
    ensures lines == LinkLines(items, show)
  {
    lines, crashed := [], false;
    var i := 0;
    while i < |items|
      invariant 0 <= i <= |items|
      invariant AllObjects(items[..i])
      invariant lines == LinkLines(items[..i], show)
    {
      if !items[i].JObject? {
        LinkLinesStop(items, i, show);
        crashed := true;
        return;
      }
      LinkLinesSnoc(items, i, show);
      lines := lines + LinkLine(items[i].members, show);
      i := i + 1;
    }
    assert items[..i] == items;
  }

  /** The on-screen links of lines 196-203. `notice` is the "No source articles"
      message shown for falsy sources; `crashed` means a `.get` or the iteration
      itself raised, after the lines already emitted. */
  method RenderSourceLinks(sources: Json, show: Formatter) returns (lines: seq<string>, notice: bool, crashed: bool)
    ensures notice <==> !Truthy(sources)
    ensures crashed <==> !Walkable(sources)
    ensures lines == if Truthy(sources) && sources.JArray? then LinkLines(sources.items, show) else []
  {
    lines, notice, crashed := [], false, false;
    if !Truthy(sources) {
      notice := true;
    } else if sources.JArray? {
      lines, crashed := ListLinks(sources.items, show);
    } else {
      // a truthy string or dict yields items without `.get`; a number or boolean is not iterable
      crashed := true;
    }
  }

  /** The download line for one source: every source gets one, whatever its url. */
  function Bullet(source: seq<Member>, show: Formatter): (r: string)
    ensures |r| == |show(Title(source))| + |show(Url(source))| + 7
    ensures r[..3] == "- [" && r[|r| - 2..] == ")\n"
  {
    "- [" + show(Title(source)) + "](" + show(Url(source)) + ")\n"
  }

  /** The sources of a walkable list, each as the members of its dict. */
  function Dicts(items: seq<Json>): (dicts: seq<seq<Member>>)
    requires AllObjects(items)
    ensures |dicts| == |items|
    ensures forall i :: 0 <= i < |items| ==> items[i] == JObject(dicts[i])
  {
    seq(|items|, i requires 0 <= i < |items| => items[i].members)
  }

  /** The download bullets, one per source, in order. */
  function Bullets(dicts: seq<seq<Member>>, show: Formatter): (bullets: seq<string>)
    ensures |bullets| == |dicts|
    ensures forall i :: 0 <= i < |dicts| ==> bullets[i] == Bullet(dicts[i], show)
  {
    MapSeq(dicts, d => Bullet(d, show))
  }

  /** Extending a prefix of the sources by one appends that source's bullet. */
  lemma BulletsSnoc(dicts: seq<seq<Member>>, i: nat, show: Formatter)
    requires i < |dicts|
    ensures Concat(Bullets(dicts[..i + 1], show)) == Concat(Bullets(dicts[..i], show)) + Bullet(dicts[i], show)
  {
    var f := d => Bullet(d, show);
    assert dicts[..i + 1] == dicts[..i] + [dicts[i]];
    MapSeqAppend(dicts[..i], [dicts[i]], f);
    var done := MapSeq(dicts[..i], f);
    assert MapSeq([dicts[i]], f) == [Bullet(dicts[i], show)];
    assert (done + [Bullet(dicts[i], show)])[..i] == done;
  }

  /** The fixed opening of the download: topic heading, summary (default "N/A"
      when the key is missing) and the sources heading. */
  function Header(topic: string, result: seq<Member>, show: Formatter): (r: string)
    ensures |"### Summary for: " + topic| <= |r| && r[..|"### Summary for: " + topic|] == "### Summary for: " + topic
    ensures |"\n\n### Sources\n\n"| <= |r| && r[|r| - |"\n\n### Sources\n\n"|..] == "\n\n### Sources\n\n"
  {
    "### Summary for: " + topic + "\n\n"
      + show(GetOr(result, "final_summary", JString("N/A"))) + "\n\n"
      + "### Sources\n\n"
  }

  /** The whole download text: the header, then a bullet per source, or the
      fallback line when the sources are falsy. */
  function Markdown(topic: string, result: seq<Member>, show: Formatter): (md: string)
    requires Walkable(SourcesOf(result))
    ensures |Header(topic, result, show)| <= |md| && md[..|Header(topic, result, show)|] == Header(topic, result, show)
    ensures !Truthy(SourcesOf(result)) ==> md[|Header(topic, result, show)|..] == "No sources found.\n"
  {
    var sources := SourcesOf(result);
    Header(topic, result, show)
      + if Truthy(sources) then Concat(Bullets(Dicts(sources.items), show)) else "No sources found.\n"
  }

  /** The loop of lines 211-212: one bullet appended to `md` per source, in order. */
  method AppendBullets(md: string, dicts: seq<seq<Member>>, show: Formatter) returns (out: string)
    ensures out == md + Concat(Bullets(dicts, show))
  {
    out := md;
    for i := 0 to |dicts|
      invariant out == md + Concat(Bullets(dicts[..i], show))
    {
      BulletsSnoc(dicts, i, show);
      AppendAssoc(md, Concat(Bullets(dicts[..i], show)), Bullet(dicts[i], show));
      out := out + Bullet(dicts[i], show);
    }
    assert dicts[..|dicts|] == dicts;
  }

  /** `md_output` of lines 207-214. It is reached only after the on-screen loop
      walked the same sources without raising, hence the precondition. */
  method BuildMarkdown(topic: string, result: seq<Member>, show: Formatter) returns (md: string)
    requires Walkable(SourcesOf(result))
    ensures md == Markdown(topic, result, show)
  {
    md := "### Summary for: " + topic + "\n\n";
    md := md + show(GetOr(result, "final_summary", JString("N/A"))) + "\n\n";
    md := md + "### Sources\n\n";
    var sources := SourcesOf(result);
    if Truthy(sources) {
      md := AppendBullets(md, Dicts(sources.items), show);
    } else {
      md := md + "No sources found.\n";
    }
  }

  /** `f"{topic.lower().replace(' ','_')}_summary.md"`. */
  function FileName(topic: string): (name: string)
    ensures |name| == |topic| + |"_summary.md"|
    ensures name[|topic|..] == "_summary.md"
    ensures forall i :: 0 <= i < |topic| ==> name[i] == if topic[i] == ' ' then '_' else LowerChar(topic[i])
    ensures ' ' !in name
  {
    ReplaceChar(Lower(topic), ' ', '_') + "_summary.md"
  }

  /** A topic and its lower-cased form get the same file name. */
  lemma FileNameIgnoresCase(topic: string)
    ensures FileName(Lower(topic)) == FileName(topic)
  {
  }

  /** Topics that differ only in letter case get the same file name. */
  lemma FileNameCaseInsensitive(a: string, b: string)
    requires Lower(a) == Lower(b)
    ensures FileName(a) == FileName(b)
  {
    FileNameIgnoresCase(a);
    FileNameIgnoresCase(b);
  }

  /** The bullets of two consecutive runs of sources are those of the first
      followed by those of the second. */
  lemma BulletsAppend(a: seq<seq<Member>>, b: seq<seq<Member>>, show: Formatter)
    ensures Concat(Bullets(a + b, show)) == Concat(Bullets(a, show)) + Concat(Bullets(b, show))
  {
    MapSeqAppend(a, b, d => Bullet(d, show));
    ConcatAppend(Bullets(a, show), Bullets(b, show));
  }

  /** When no title or url renders with a line break, the download's source
      section holds exactly one line per source. */
  lemma OneBulletLinePerSource(dicts: seq<seq<Member>>, show: Formatter)
    requires forall i :: 0 <= i < |dicts| ==> '\n' !in show(Title(dicts[i])) + show(Url(dicts[i]))
    ensures CountChar(Concat(Bullets(dicts, show)), '\n') == |dicts|
  {
    var bullets := Bullets(dicts, show);
    forall i | 0 <= i < |dicts| ensures CountChar(bullets[i], '\n') == 1 {
      var front := "- [" + show(Title(dicts[i])) + "](" + show(Url(dicts[i])) + ")";
      assert bullets[i] == front + "\n";
      CountCharAbsent(front, '\n');
      CountCharAppend(front, "\n", '\n');
    }
    CountCharConcat(bullets, '\n');
  }

  /** With string titles and urls, each download bullet is the markdown link itself. */
  lemma StringBullet(source: seq<Member>, show: Formatter, title: string, url: string)
    requires FormatsLikePython(show)
    requires Title(source) == JString(title) && Url(source) == JString(url)
    ensures Bullet(source, show) == "- [" + title + "](" + url + ")\n"
  {
  }

  /** A source without a url is skipped on screen but still listed in the
      download, with the literal link target "None". */
  lemma UrlLessSourceMismatch(source: seq<Member>, show: Formatter)
    requires FormatsLikePython(show)
    requires Get(source, "url").None?
    ensures LinkLine(source, show) == []
    ensures Bullet(source, show) == "- [" + show(Title(source)) + "](None)\n"
  {
  }

  /** On screen there is at most one line per source, and one for every source
      exactly when every url is truthy. */
  lemma {:induction false} LinkLinesCount(items: seq<Json>, show: Formatter)
    requires AllObjects(items)
    ensures |LinkLines(items, show)| <= |items|
    ensures |LinkLines(items, show)| == |items| <==> forall i :: 0 <= i < |items| ==> Truthy(Url(items[i].members))
  {
    if |items| > 0 {
      LinkLinesCount(items[1..], show);
      assert forall i :: 1 <= i < |items| ==> items[1..][i - 1] == items[i];
    }
  }

  /** The number of sources among `items` that are dicts with a truthy url,
      counted from the back. */
  function LinkedCount(items: seq<Json>): (n: nat)
    ensures n <= |items|
  {
    if |items| == 0 then 0
    else
      var last := items[|items| - 1];
      LinkedCount(items[..|items| - 1]) + if last.JObject? && Truthy(Url(last.members)) then 1 else 0
  }

  /** On screen there is exactly one line per source whose url is truthy. */
  lemma {:induction false} LinkLinesExactCount(items: seq<Json>, show: Formatter)
    requires AllObjects(items)
    ensures |LinkLines(items, show)| == LinkedCount(items)
  {
    if |items| > 0 {
      var front, last := items[..|items| - 1], items[|items| - 1];
      assert items == front + [last];
      LinkLinesAppend(front, [last], show);
      LinkLinesExactCount(front, show);
    }
  }

  /** When every url is truthy, the i-th on-screen line is the i-th source's link. */
  lemma {:induction false} LinkLinesAllLinked(items: seq<Json>, show: Formatter)
    requires AllObjects(items)
    requires forall i :: 0 <= i < |items| ==> Truthy(Url(items[i].members))
    ensures |LinkLines(items, show)| == |items|
    ensures forall i :: 0 <= i < |items| ==>
              LinkLines(items, show)[i] == "- [" + show(Title(items[i].members)) + "](" + show(Url(items[i].members)) + ")"
  {
    if |items| > 0 {
      LinkLinesAllLinked(items[1..], show);
    }
  }

  /** When no url is truthy, nothing is linked on screen. */
  lemma {:induction false} LinkLinesNoneLinked(items: seq<Json>, show: Formatter)
    requires AllObjects(items)
    requires forall i :: 0 <= i < |items| ==> !Truthy(Url(items[i].members))
    ensures LinkLines(items, show) == []
  {
    if |items| > 0 {
      LinkLinesNoneLinked(items[1..], show);
    }
  }

  /** Without a `final_summary` key the download says "N/A" where the screen
      says "No summary was generated.". */
  lemma MissingSummaryDefaults(topic: string, result: seq<Member>, show: Formatter)
    requires FormatsLikePython(show)
    requires Get(result, "final_summary").None?
    ensures Header(topic, result, show) == "### Summary for: " + topic + "\n\nN/A\n\n### Sources\n\n"
    ensures show(GetOr(result, "final_summary", JString("No summary was generated."))) == "No summary was generated."
  {
  }

  /** Falsy sources (missing, empty list, empty string, ...) give the fallback line. */
  lemma NoSourcesFallback(topic: string, result: seq<Member>, show: Formatter)
    requires !Truthy(SourcesOf(result))
    ensures Walkable(SourcesOf(result))
    ensures Markdown(topic, result, show) == Header(topic, result, show) + "No sources found.\n"
  {
  }
}
