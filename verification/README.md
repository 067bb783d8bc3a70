# viral-gen: the prompt and the section splitter, in Dafny

viral-gen is a one-page Streamlit app (`app.py`). The user gives a topic and
picks a category and a vibe. The app sends a fixed instruction text (the
*prompt*) to a text generator, gets one string back, and shows it on three
tabs: Instagram, YouTube Shorts and X. This project models the pure string
handling around that call:

- `Composer` builds the prompt. It splices the topic and the labels of the
  category and the vibe into a fixed template. The template declares the
  `"|||"` section separator and names three section titles.
- `Splitter` turns the generated text into the three tab texts:
  - when the text has `"|||"`, it is split Python-style and the first three
    pieces are taken, with `"No Data"` standing in for a missing third piece;
  - when the text has no `"|||"`, the whole text goes on the Instagram tab
    and `"See Main Tab"` goes on the other two;
  - finally, each tab's section title is deleted with `str.replace`.
- `PyStr` models the Python string operations the app relies on, with the
  semantics CPython gives them:
  - `in` (`Contains`, through the leftmost-occurrence search `Find`);
  - `str.split` (`Split`);
  - `str.replace(pat, "")` (`Remove`), which, as in CPython, finds the
    leftmost occurrence, keeps the text before it and carries on after it.

  It also defines two helpers the app never calls, used only to state and
  prove properties: `Count`, the non-overlapping occurrence count that
  `str.count` gives, and `Join`, which is `str.join`.
- `Protocol` connects the two halves. Every separator and title the prompt
  declares is one the splitter acts on. An answer laid out as the prompt
  asks reaches the tabs section by section, with the titles deleted.

Strings are `seq<char>`, and every operation is a function. `Split` requires a non-empty separator, as Python does: `str.split("")` raises ValueError. `Count` is defined only for non-empty separators, unlike `str.count("")`, which returns `len(s) + 1`. The model only ever counts `"|||"` and the section titles.

`str.split` has one subtlety. A piece is only returned intact when no
separator starts inside it, and that includes a separator that runs on into
the delimiter after it. The predicate `Clean(p, sep)` is exactly this
condition: no `sep` in `p + sep[..|sep|-1]`. Being free of `"|||"` is not
enough. For example, `"x|" + "|||" + "" + "|||" + ""` splits into
`"x"`, `""` and `"|"`. So the round-trip lemmas require every section except
the last to be `Clean`, and the last one to be free of the separator.

## Model

| member | source | states |
|---|---|---|
| PyStr.FindSpec | app.py:121 | `"|||" in raw_text`: when the search returns a position, the separator occurs there and nowhere before it. When it returns None, the separator occurs nowhere. |
| PyStr.Count | app.py:122 | The non-overlapping occurrence count of the separator is zero exactly when the text does not contain it. |
| PyStr.SplitLength | app.py:122 | `raw_text.split("|||")` returns one more piece than there are non-overlapping separators, so always at least one piece, and at least two when the separator occurs. |
| PyStr.JoinSplit | app.py:122 | Splitting loses nothing: joining the pieces back with the separator gives the original text. |
| PyStr.SplitWellFormed | app.py:122 | Every piece but the last is clean, and the last piece has no separator. |
| PyStr.CleanHasNoSeparator | app.py:122 | A clean piece has no separator in it, so cleanness is the stronger of the two conditions. |
| PyStr.SplitJoin | app.py:122 | Split inverts join on every list of pieces split can produce, i.e. at least one piece, each non-last piece clean and the last piece separator-free. |
| PyStr.SplitCons | app.py:122 | A clean piece followed by the separator is split off the front as it is, and the remaining text is split on its own. |
| PyStr.RemoveShrinks | app.py:138 | `replace(title, "")` never makes the text longer, and leaves it unchanged exactly when the title does not occur. |
| PyStr.RemoveKeepsPieces | app.py:138 | Deleting every occurrence keeps exactly the pieces between the occurrences: `s.replace(p, "") == "".join(s.split(p))`. |
| PyStr.RemoveOne | app.py:138 | A section holding the title once, with a clean lead before it, becomes lead + rest. |
| PyStr.RemoveLength | app.py:138 | Each deleted occurrence removes exactly the title's length: the result's length plus count × title length equals the input's length. |
| Splitter.SplitShape | app.py:121-125 | With a separator, the split has at least two pieces. With one separator the text is the first two pieces around it; with two it is the three pieces joined; with more it starts with the first three pieces, each followed by a separator. |
| Splitter.Extract | app.py:121-130 | With no separator, the tabs are the whole text, "See Main Tab" and "See Main Tab". With one separator, the text is exactly insta + separator + shorts, insta is clean, shorts is separator-free and x is "No Data". With two, the text is exactly insta, shorts and x joined by the separator. With more, the text starts with insta, shorts and x, each followed by a separator. Every section that precedes a separator is clean. |
| Splitter.ExtractAroundFirst | app.py:121-124 | With a separator, the Instagram tab is the text before the first separator and the Shorts tab is the first piece of the text after it, so neither the `else raw_text` nor the "No Data" fallback of lines 123-124 applies. |
| Splitter.ExtractTwoSections | app.py:121-125 | Converse for one separator: a clean a and a separator-free b joined by it give the tabs (a, b, "No Data"). |
| Splitter.ExtractRoundTrip | app.py:121-125 | Converse for two separators: clean a and b and a separator-free c joined by separators give the tabs (a, b, c). |
| Splitter.ExtractDropsTail | app.py:121-125 | Anything after a third separator is shown on no tab. |
| Splitter.RoundTripNeedsClean | app.py:122-125 | A section free of "|||" but not clean, here "x|", does not survive the split. |
| Splitter.StripTitles | app.py:138-157 | Each tab shows its section with every occurrence of its own title deleted. What remains is the text between the occurrences, and each occurrence removes the title's length. |
| Splitter.Display | app.py:121-157 | Without a separator, the Shorts and X tabs show "See Main Tab". With exactly one separator, the X tab shows "No Data". In both cases the sentinels are shorter than the titles, so title deletion leaves them untouched. |
| Splitter.DisplayLaidOut | app.py:121-157 | A text of three sections, each a lead, its title and a body, shows lead + body on each tab. |
| Composer.PromptCarriesInputs | app.py:76-78 | The prompt carries the topic, the category label and the vibe label verbatim. |
| Composer.PromptDeclaresSeparator | app.py:76-80 | The prompt contains the separator it declares. |
| Composer.PromptNamesSections | app.py:76-103 | The prompt names the three section titles. |
| Composer.PromptFrame | app.py:76-78 | The topic is spliced in verbatim between a fixed head, the template text before `{topic}`, and a tail that depends only on the category and vibe labels. |
| Composer.PromptDeterminesTopic | app.py:76-78 | For a fixed category and vibe, two topics giving the same prompt are the same topic: the prompt never loses or merges topics. |
| Composer.ComposePrompt | app.py:76-103 | The prompt for a topic, category and vibe contains the topic, both labels, the separator and the three section titles. |
| Protocol.LaidOutAnswerIsShown | app.py:76-157 | The prompt contains the separator and titles that the display code uses. An answer that puts each declared title at the start of its section and joins the sections with the declared separator is shown as exactly the three bodies. |

## Left out

- Streamlit page setup, styling, sidebar, input widgets and tabs (app.py:1-68, 133-159) are UI, and are not modelled. `Display` stands for what the three `st.write` calls receive.
- Reading the API key from `st.secrets` or the sidebar (app.py:46-53) is credential I/O, and is left out.
- `genai.configure`, `GenerativeModel` and `generate_content` (app.py:72-73, 105) are network calls. The generated text is an arbitrary input string of `Extract` and `Display`.
- The placeholder `st.code` texts (app.py:143, 152, 159) are fixed strings unrelated to the generated text, and are left out.
- The `try`/`except` that shows `st.error` (app.py:115, 161-162) and the empty-key and empty-topic guards (app.py:109-112) are UI error display. `Extract` and `Display` are total and never raise. `Split` is only called with the non-empty `"|||"`, so Python's ValueError for an empty separator appears only as `Split`'s precondition.
- The app has no inner field separator, no per-field decoding and no whitespace stripping. The sentinels it uses are "No Data" and "See Main Tab". The model follows the code in each of these.
- The prompt declares the `"|||"` separator once, on its fifth line. The model states that the prompt contains it, as the code has it.
- Determinism is not stated as a lemma. Every operation is a Dafny function, so equal inputs give equal results by construction.
- Splitter.ExtractRoundTrip: does not hold for every separator-free a, b and c, because Python's split can find a separator that starts inside a piece. It requires a and b to be `Clean`, and `RoundTripNeedsClean` shows the weaker hypothesis is not enough.
- Composer.ComposePrompt: states what the prompt contains, and `PromptFrame` where the topic sits, not every character. The exact text is `PromptLines` joined by newlines, spelled out line by line from the template.
