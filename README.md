# Figma analysis service: the `/analysis` pipeline as a Dafny model

The service behind `FastAPI/main.py` fetches a Figma file, reduces the file's JSON
to a bounded summary, sends the summary to Gemini as a prompt, and renders the
streamed answer into a PDF report. This project models the three pieces of that
handler that have their own logic, and proves what they promise.

- `json.dfy` (module `JsonValue`): decoded JSON values. Objects are sequences of
  `(key, value)` entries in insertion order, as Python dicts are. `Get` and `GetOr`
  model `dict.get(key)` and `dict.get(key, default)`. `Truthy` is Python's `bool(v)`.
- `summary.dfy` (module `FigmaSummary`): the nested `extract_figma_summary`.
  `WellShaped` states a shape under which the Python code does not raise (a sufficient
  condition, not the only one). The summary's dict keys map onto datatype fields: `type` becomes `kind` and
  `text_styles` becomes `textStyles`. An absent key read with `.get(key)` gives
  `Null`, as Python gives `None`. `Prune` keeps only the part of a document that the
  extractor looks at. `SummaryReadsDepthTwo` proves that the summary of the pruned
  document is the same summary.
- `report.dfy` (module `Report`):
  - `Truncate` cuts a line to the page width.
  - `Split` is `str.split("\n")`, proved inverse to `"\n".join`.
  - `Canvas` is an abstract recorder of `drawString` and `showPage` calls. It holds
    the finished pages and the open page.
  - `RenderReport` is the layout loop, written as a method over that recorder. It is
    proved to produce `Layout`, the closed-form placement of every line. Line
    `PageStart(p) + k` goes on page `p` at height `Top(p) - 15 k`. Page 0 starts at
    770 and holds 49 lines. Every later page starts at 800 and holds 51.
- `analysis.dfy` (module `Analysis`): the handler `analyze_figma`.
  - Its inputs are the configuration, the Figma reply (a status and a body) and the
    generation (a function from the summary to a stream of chunk texts, which may end
    in an exception).
  - It returns the response and the outbound calls made, in order.
  - `Accumulate` is the stream loop.

## Model

| member | source | states |
|---|---|---|
| `JsonValue.Lookup` | FastAPI/main.py:83-84 | a found value is one the dict stores under that key; nothing is found exactly when the key is absent |
| `JsonValue.Get` | FastAPI/main.py:92-93 | `d.get(key)`: a value found is one the dict stores under the key; None when the key is absent or the value is not a dict |
| `JsonValue.GetOr` | FastAPI/main.py:83-84 | `d.get(key, default)` on a dict: when some entry has the key, the result is a value stored under that key; when none has it, the result is the default; a non-dict gives the default |
| `JsonValue.Keys` | FastAPI/main.py:110-111 | `list(d.keys())`: one key per entry, in insertion order, key i being entry i's key |
| `JsonValue.Take` | FastAPI/main.py:98 | the slice `s[:n]` (also `[:10]` at lines 110-111): a prefix of `s` holding all of it when it has at most `n` elements and exactly `n` otherwise |
| `JsonValue.LookupAt` | FastAPI/main.py:83-84 | in a dict (unique keys) the lookup of a stored key yields the value stored with it |
| `FigmaSummary.Document` | FastAPI/main.py:89 | `data.get("document", {})`: a value stored under `document` when the key is present, otherwise the empty dict |
| `FigmaSummary.Children` | FastAPI/main.py:90 | `node.get("children", [])`: when `children` holds a list, the result is a list stored under that key; when the key is absent, no children; a non-empty result is always stored under `children` |
| `FigmaSummary.ExtractFrame` | FastAPI/main.py:99-103 | `frame_info`: the child's own `name`, `type` and `backgroundColor`, each None when the key is absent |
| `FigmaSummary.ExtractPage` | FastAPI/main.py:91-105 | `page_info`: the page's own `name` and `type` (None when absent) and exactly min(20, n) frames, frame j built from child j |
| `FigmaSummary.ExtractSummary` | FastAPI/main.py:81-114 | the summary has one page per child of `document`, at most 20 frames per page, and at most 10 colour keys and 10 text-style keys, whatever the input size |
| `FigmaSummary.ExtractPages` | FastAPI/main.py:90-106 | one page entry per first-level child, in order, entry i built from child i |
| `FigmaSummary.ExtractFrames` | FastAPI/main.py:98-104 | one frame entry per kept child, in order, entry j built from child j |
| `FigmaSummary.StyleKeys` | FastAPI/main.py:110-111 | never more than 10 keys |
| `FigmaSummary.NameAndVersionDefaults` | FastAPI/main.py:83-84 | `name` and `version` are the values the document stores under those keys, or "Unknown" when the key is absent |
| `FigmaSummary.PagesFollowDocument` | FastAPI/main.py:89-106 | exactly one page per child of `document`, in the same order; no pages when `document` or its `children` is absent |
| `FigmaSummary.FramesArePrefix` | FastAPI/main.py:98-104 | a page's frames are its first min(20, n) children in order, each holding that child's `name`, `type` and `backgroundColor` (None when absent) |
| `FigmaSummary.StyleKeysArePrefix` | FastAPI/main.py:109-112 | `colors` is the first at most 10 keys of `styles` and `text_styles` of `componentSets`, in order; empty when the mapping is absent, falsy or empty |
| `FigmaSummary.SummaryReadsDepthTwo` | FastAPI/main.py:81-114 | the summary equals the summary of the document pruned to top-level name and version, page name/type, the first 20 frames' name/type/backgroundColor, and the first 10 style keys, so nothing deeper is read |
| `FigmaSummary.TwoPagesOfTwentyFiveFrames` | FastAPI/main.py:98 | a document of two pages with 25 frames each yields two pages of exactly 20 frames, name "Unknown" and empty style lists |
| `Report.Truncate` | FastAPI/main.py:167-168 | a line of at most 90 characters is unchanged; a longer one becomes exactly 90 characters: its first 87 followed by "..." |
| `Report.TruncateIdempotent` | FastAPI/main.py:167-168 | no truncated line is wider than 90 and truncating again changes nothing |
| `Report.Split` | FastAPI/main.py:160 | `split("\n")` gives one piece per newline plus one, none containing a newline |
| `Report.JoinSplit` | FastAPI/main.py:160 | joining the pieces with newlines gives the text back |
| `Report.SplitJoin` | FastAPI/main.py:160 | splitting a newline-join of newline-free pieces gives those pieces back |
| `Report.EmptyTextOneLine` | FastAPI/main.py:158-171 | an empty analysis is one empty line, drawn at 770 on the only page |
| `Report.Canvas.constructor` | FastAPI/main.py:150 | a new canvas has no ended pages and an empty open page |
| `Report.Canvas.ShowPage` | FastAPI/main.py:162 | the open page is ended and an empty page is opened |
| `Report.Canvas.DrawString` | FastAPI/main.py:170 | one placement is appended to the open page and nothing else changes |
| `Report.CountStep` | FastAPI/main.py:161-164 | `y_position < 50` holds exactly when the last page is full, and only then does the next line open a page |
| `Report.LayoutStep` | FastAPI/main.py:160-171 | placing one more line either opens a page holding only that line at 800 or appends it to the last page, 15 below the previous one |
| `Report.LayoutKeepsLines` | FastAPI/main.py:160-171 | read page by page, the placements are exactly the input lines, in order, each truncated and at the height the loop draws it |
| `Report.LayoutKeepsTexts` | FastAPI/main.py:160-170 | read page by page, the placed texts are the truncated input lines in order, one per line |
| `Report.LayoutWithinMargins` | FastAPI/main.py:158-171 | every placement has 50 <= y <= 800; a page's first line is at 770 on the first page and 800 later; y drops by 15 between consecutive lines of a page |
| `Report.LayoutPageCapacity` | FastAPI/main.py:158-171 | the first page holds at most 49 lines and each later page at most 51; every page but the last is full; the last page is empty only when there are no lines, so a page break happens only when a line remains |
| `Report.RenderReport` | FastAPI/main.py:158-171 | the recorded pages are the closed-form layout of `text.split("\n")` |
| `Analysis.ConcatAppend` | FastAPI/main.py:141-144 | the text of consecutive chunk runs is the texts of the runs glued in order |
| `Analysis.HelloWorld` | FastAPI/main.py:141-144 | the chunks "Hello ", "World", "!" give "Hello World!"; absent and empty chunk texts give nothing |
| `Analysis.Accumulate` | FastAPI/main.py:141-144 | skipping falsy chunk texts, the loop's text is the in-order concatenation of all chunk texts |
| `Analysis.AnalyzeFigma` | FastAPI/main.py:66-181 | a missing setting ends with "Missing env vars" before any call; a non-200 fetch ends with "failed to fetch figma" after the fetch only; otherwise both calls are made, and the response is the generation error or the report pages of the concatenated chunk text |

## Left out

- HTTP routing, the `/` and `/models` handlers, the `/fetch` handler and its console printing: framework plumbing and network I/O outside the pipeline.
- Loading the environment and configuring the Gemini SDK: the three settings are a `Config` parameter. Python's `not value` is modelled as "absent or empty".
- The network and SDK calls (`requests.get`, `res.json()`, `generate_content`, the stream iterator). They are parameters: a status with an already decoded body, and a function from the summary to the chunk texts plus an optional exception message. A body that is not JSON is not modelled. Nor are two exceptions the handler does not catch: `requests.get` itself raising (a connection error or timeout, line 73), after which the request fails with a server error and Gemini is never called, and `genai.GenerativeModel(...)` raising, which sits outside the `try` (line 119).
- Building the prompt text and `json.dumps` of the summary: `generate` receives the summary value itself.
- reportlab: fonts, the bold title drawn at (40, 800) on the first page, the x coordinate (always 40), `save`, and the PDF bytes. The report response carries the recorded pages instead of bytes. The content type and file name are not modelled.
- FigmaSummary.ExtractSummary: requires `WellShaped`. The top level, `document`, every page and the first 20 frames of each page must be dicts. Every `children` read must be a list. A truthy `styles` or `componentSets` must be a dict. Python raises a server error outside this shape. The model does not cover the few other inputs that would not raise, for example `children` given as an empty string.
- Analysis.AnalyzeFigma: requires a 200 reply to carry a well-shaped body. It does not model the server error Python gives for any other body.
- JSON numbers are modelled as reals, so the float/int distinction is not modelled. Strings are sequences of Dafny characters, so `len` counts code points as Python's `len` on `str` does; a string holding a lone surrogate is not modelled.
