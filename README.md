# Post-processing of the news crew's output

A Dafny model of the one piece of precise logic in the Tech News Summarizer
Streamlit app (`streamlit_app.py`): what happens to the crew's final text
after the two-stage research/summarize run returns it.

- **Parse** (lines 160-179): the candidate JSON text is the slice from the
  first `{` (`find`) up to one past the last `}` (`rfind('}') + 1`); it is
  handed to `json.loads`, and the attempt ends as *parsed*, *could not find a
  JSON object*, *decode error*, or *not a string* (AttributeError).
  `end_index` can never be -1, so only a missing `{` reaches the "could not
  find" branch; a missing `}` gives an empty slice and a decode error.
- **Display guard** (line 182): the briefing is rendered only when the decoded
  value is truthy, so a decoded `{}` shows nothing.
- **On-screen links** (lines 194-203): one markdown link per source whose `url`
  is truthy, in order; falsy sources show a notice instead.
- **Download** (lines 207-214): a fixed header, the summary (`N/A` when the key
  is missing), `### Sources`, then one bullet per source in order, url-less
  sources included (their target renders as `None`), or `No sources found.`
- **File name** (line 219): the topic lower-cased, spaces turned into `_`,
  followed by `_summary.md`.

`json.loads` is a parameter (`JsonValue.Decoder`) constrained by
`ValidDecoder` (the empty text fails; a text starting with `{` can only
decode to an object). The f-string rendering of a decoded value (`str()`)
is a parameter (`JsonValue.Formatter`) constrained by `FormatsLikePython`
(a string shows as itself, `None` as `None`). Exceptions raised while the
briefing is rendered (a source that is not a dict, truthy sources that are
not a list) end the page in the generic error message of the outer handler;
the model records this as `crashed`, keeping the links already emitted.

Modules: `Wrappers` (Option, Result), `Strings` (find, rfind, slicing,
lower, replace), `JsonValue` (decoded values, truthiness, `dict.get`),
`OutputParser` (the parse block), `Briefing` (links, download, file name),
`Presentation` (the whole block as one method).

## Model

| member | source | states |
|---|---|---|
| Strings.Find | streamlit_app.py:164 | `find('{')` is the first index holding the character, -1 exactly when it does not occur |
| Strings.RFind | streamlit_app.py:165 | `rfind('}')` is the last index holding the character, -1 exactly when it does not occur |
| Strings.Slice | streamlit_app.py:168 | Python slicing: in-range bounds give the contiguous substring, an upper bound at or below the lower one gives "", an upper bound past the end is clamped to it, and a lower bound at or past the end gives "" |
| Strings.Lower | streamlit_app.py:219 | `lower()` keeps the length and lower-cases each ASCII letter in place |
| Strings.ReplaceChar | streamlit_app.py:219 | `replace(' ', '_')` keeps the length and swaps every occurrence, nothing else |
| Strings.LowerIdempotent | streamlit_app.py:219 | lower-casing twice is lower-casing once |
| JsonValue.LastIndexOf | streamlit_app.py:169 | the decoded dict keeps, for a repeated key, its last occurrence: the index holds the key and no later member does; -1 exactly when no member has the key |
| JsonValue.Get | streamlit_app.py:189-199 | a key is absent from the dict exactly when no member carries it; otherwise its value is that of the last member carrying it |
| JsonValue.Truthy | streamlit_app.py:182-200 | Python's truth test: a value is falsy exactly when it is None, False, the int 0, the float 0.0, "", [] or {} |
| JsonValue.GetOr | streamlit_app.py:189-199 | `dict.get(key, default)` yields the default when the key is missing, and the stored value (even a falsy one) when it is present |
| OutputParser.StartIndex | streamlit_app.py:164 | `start_index` is -1 exactly when the text has no `{`, and otherwise the position of its first `{` |
| OutputParser.EndIndex | streamlit_app.py:165 | `rfind('}') + 1` is never negative, so never -1 |
| OutputParser.Candidate | streamlit_app.py:168 | `json_part` is no longer than the text, is empty exactly when the last `}` comes before the first `{`, and otherwise runs from a `{` to a `}` |
| OutputParser.Classify | streamlit_app.py:163-179 | the outcome is *not a string* exactly for non-text output, *could not find* exactly for text without `{`, and otherwise *parsed* or *decode error* as the decoder's verdict on `json_part` |
| OutputParser.ResultData | streamlit_app.py:161-179 | `result_data` holds a value exactly in the parsed outcome and stays None in every error branch |
| OutputParser.ShowsReport | streamlit_app.py:182 | the briefing is rendered exactly when the parse succeeded with a truthy value |
| OutputParser.CandidateIsBracketed | streamlit_app.py:164-168 | when a `{` precedes the last `}`, the slice is that contiguous substring, starts with `{`, ends with `}`, is no longer than the text, and no `{` precedes it nor `}` follows it |
| OutputParser.NoiseIsIgnored | streamlit_app.py:164-168 | for `p + j + q` with no `{` in `p`, no `}` in `q`, and `j` bracketed, the candidate is exactly `j` |
| OutputParser.EmbeddedObjectIsDecoded | streamlit_app.py:164-169 | an object text embedded in such prose is decoded on its own and parsed |
| OutputParser.NotFoundIffNoOpenBrace | streamlit_app.py:164-172 | `end_index != -1` always holds, and the "could not find" branch is taken if and only if the text has no `{` |
| OutputParser.NotFoundIgnoresDecoder | streamlit_app.py:164-172 | without a `{` the outcome is the same for every decoder (it is never called) and `result_data` stays None |
| OutputParser.UnclosedBraceIsDecodeError | streamlit_app.py:165-176 | with a `{` but no `}` after it, the candidate is empty and the outcome is the decoder's error on "", not "could not find" |
| OutputParser.ErrorsRenderNoReport | streamlit_app.py:177-182 | a non-string output takes the AttributeError branch; every error outcome leaves `result_data` None and renders no report |
| OutputParser.ReportIffNonEmptyObject | streamlit_app.py:169-182 | with a decoder like `json.loads`, a parsed value is an object and the report is rendered if and only if it has a member (so `{}` renders nothing) |
| Briefing.SourcesOf | streamlit_app.py:194 | `final_sources` defaults to `[]` only when the key is missing; a present value is kept as is |
| Briefing.Title | streamlit_app.py:198 | `title` defaults to "Source Link" only when the key is missing; a present value (even empty) is kept |
| Briefing.Url | streamlit_app.py:199 | `url` is None when the key is missing and the stored value otherwise |
| Briefing.LinkLine | streamlit_app.py:198-201 | a source yields at most one on-screen line, one exactly when its url is truthy, and that line plus a newline is its download bullet |
| Briefing.LinkLines | streamlit_app.py:197-201 | the on-screen loop emits no more lines than there are sources |
| Briefing.Walkable | streamlit_app.py:196-201 | falsy sources are never iterated, so they never raise; truthy sources can be walked only when they are a list, and a non-empty list exactly when all its elements are dicts |
| Briefing.LinkLinesAppend | streamlit_app.py:197-201 | the on-screen lines of two consecutive runs of sources are those of the first followed by those of the second (order is kept) |
| Briefing.LinkLinesStop | streamlit_app.py:197-199 | the first source that is not a dict ends the on-screen lines (its `.get` raises) |
| Briefing.ListLinks | streamlit_app.py:197-201 | the loop over a list emits exactly the link lines of its sources in order, and raises exactly when some element is not a dict |
| Briefing.RenderSourceLinks | streamlit_app.py:196-203 | the loop emits the link lines of the sources in order, shows the notice exactly for falsy sources, and raises exactly when the sources cannot be walked |
| Briefing.LinkLinesCount | streamlit_app.py:197-201 | at most one on-screen line per source, and one for every source if and only if every url is truthy |
| Briefing.LinkLinesExactCount | streamlit_app.py:197-201 | the number of on-screen lines is exactly the number of sources whose url is truthy |
| Briefing.LinkLinesAllLinked | streamlit_app.py:197-201 | when every url is truthy, line i is the link `- [title](url)` of source i |
| Briefing.LinkLinesNoneLinked | streamlit_app.py:197-201 | when no url is truthy, no link is shown |
| Briefing.Bullet | streamlit_app.py:212 | a download bullet starts with `- [`, ends with `)` and a newline, and is 7 characters longer than the rendered title and url |
| Briefing.Bullets | streamlit_app.py:210-212 | one download bullet per source: as many bullets as sources, bullet i being source i's |
| Briefing.Header | streamlit_app.py:207-209 | the download opens with `### Summary for: ` and the topic, and its header closes with the `### Sources` heading and a blank line |
| Briefing.Markdown | streamlit_app.py:207-214 | the download text starts with the header, and for falsy sources the rest is exactly `No sources found.` and a newline |
| Briefing.AppendBullets | streamlit_app.py:211-212 | the loop appends the bullets of all sources, in order, to the text so far |
| Briefing.BuildMarkdown | streamlit_app.py:207-214 | the accumulated text equals the header followed by one bullet per source in order, or the fallback line |
| Briefing.BulletsAppend | streamlit_app.py:210-212 | the bullets of two consecutive runs of sources are those of the first followed by those of the second |
| Briefing.OneBulletLinePerSource | streamlit_app.py:210-212 | when no title or url renders with a line break, the sources section has exactly one line per source |
| Briefing.StringBullet | streamlit_app.py:212 | with string title and url a bullet is exactly `- [title](url)` and a newline |
| Briefing.UrlLessSourceMismatch | streamlit_app.py:199-212 | a source without a url has no on-screen line but is still a download bullet with target `None` |
| Briefing.MissingSummaryDefaults | streamlit_app.py:189-209 | without a `final_summary` key the download header reads `N/A` while the screen reads "No summary was generated." |
| Briefing.NoSourcesFallback | streamlit_app.py:210-214 | falsy sources give the header followed by `No sources found.` |
| Briefing.FileName | streamlit_app.py:219 | the name is the topic lower-cased with spaces turned into `_`, followed by `_summary.md`, and contains no space |
| Briefing.FileNameIgnoresCase | streamlit_app.py:219 | a topic and its lower-cased form get the same file name |
| Briefing.FileNameCaseInsensitive | streamlit_app.py:219 | any two topics with the same lower-case form get the same file name |
| Presentation.PostProcess | streamlit_app.py:159-222 | ties the page to the parse outcome: the briefing appears exactly for a truthy decoded object, with its summary, links, notice, and the download and file name unless a source loop raised |

## Left out

- All Streamlit rendering (page setup, sidebar, tabs, headers, `st.error`/`st.code` messages and their text, the download widget): only the strings and decisions that feed them are modelled.
- The background image helper `add_bg_from_local` (file I/O, base64, CSS).
- `generate_news_summary`, the crew run and its result cache: the raw output is an input of the model.
- The empty-topic warning of line 152: the sidebar always offers a topic, and the check precedes the block modelled here.
- The internals of `json.loads` (RFC 8259): the decoder is a parameter that either succeeds or fails with a `JSONDecodeError`. Every other exception it raises (recursion-depth errors, the `ValueError` for an integer literal past the interpreter's digit limit, ...) is not modelled: such an exception skips the handlers of lines 174-179 and reaches the outer handler of line 224, while a `Decoder` can report it only as a decode error.
- The form of `str()` on decoded numbers, lists and dicts: the formatter is a parameter, pinned down only for strings and None.
- Strings.Lower: Unicode case mapping is not modelled; only ASCII letters are lower-cased, other characters are kept.
- A raw output that has a `find` method but is not a string (such as bytes, which raises TypeError in the outer handler) is not distinguished; `NotText` stands for an output without `find`.
- The outer `except Exception` catch-all for failures of the crew run itself; only exceptions raised while rendering the briefing are modelled, as `crashed`.
- task.py, agents.py, crew.py and tools.py: agent and task configuration and API client setup, with no logic of their own to verify.
