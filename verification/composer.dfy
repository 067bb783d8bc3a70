/** The prompt that `get_viral_plan` sends to the text generator: a fixed
    instruction text with the topic, the category and the vibe spliced into
    its third line. The text declares the "|||" section separator and asks
    for three titled sections, one per platform. */
module Composer {
  import opened PyStr

  /** The options of the "Category" select box, in display order. */
  datatype Category = Tech | Comedy | Education | Fitness | Business | Lifestyle | Gaming | Food
  {
    /** The option text, which is what the prompt receives. */
    function Label(): string {
      match this
      case Tech => "Tech"
      case Comedy => "Comedy"
      case Education => "Education"
      case Fitness => "Fitness"
      case Business => "Business"
      case Lifestyle => "Lifestyle"
      case Gaming => "Gaming"
      case Food => "Food"
    }
  }

  /** The options of the "Vibe" select box, in display order. */
  datatype Vibe = HighEnergy | AestheticCalm | Controversial | Funny | Educational | Storytime
  {
    function Label(): string {
      match this
      case HighEnergy => "High Energy"
      case AestheticCalm => "Aesthetic/Calm"
      case Controversial => "Controversial"
      case Funny => "Funny"
      case Educational => "Educational"
      case Storytime => "Storytime"
    }
  }

  /** The triple-quoted template is indented with the code around it, so every
      non-empty line of the prompt starts with these four spaces. */
  const Indent: string := "    "

  /** The separator the prompt tells the generator to put between sections. */
  const DeclaredSeparator: string := "|||"

  /** The section titles the prompt asks for. */
  const InstaSection: string := "SECTION 1: INSTAGRAM REELS"
  const ShortsSection: string := "SECTION 2: YOUTUBE SHORTS"
  const XSection: string := "SECTION 3: X (TWITTER)"

  /** The line of the prompt that carries the three inputs, given as the
      topic and the option texts of the category and the vibe. */
  function RequestLine(topic: string, niche: string, mood: string): string {
    Indent + "Topic: " + topic + Labels(niche, mood)
  }

  /** The end of the request line, after the topic. */
  function Labels(niche: string, mood: string): string {
    " | Niche: " + niche + " | Vibe: " + mood
  }

  /** The two lines before the request: the opening newline of the template
      gives the empty first line. */
  const Intro: seq<string> :=
    [ "",
      Indent + "Act as a social media algorithm expert. Create a viral strategy for:" ]

  /** The lines between the request and the Instagram section, with the
      separator declaration. */
  const Preamble: seq<string> :=
    [ "",
      SeparatorLine(DeclaredSeparator),
      Indent ]

  /** What the prompt asks for in the Instagram section. */
  const InstaBrief: seq<string> :=
    [ TitleLine(InstaSection),
      Indent + "- Give a file name like 'POV_Travel.mp4'",
      Indent + "- Suggest a specific Trending Audio Vibe (e.g. \"Use 'It's a beautiful day' original audio\").",
      Indent + "- Provide a Visual Hook description.",
      Indent + "- WRITE THE CAPTION: SEO optimized, line breaks, emojis.",
      Indent + "- WRITE 30 HASHTAGS: Mix of 1M+ and niche tags.",
      Indent ]

  /** What the prompt asks for in the Shorts section. */
  const ShortsBrief: seq<string> :=
    [ TitleLine(ShortsSection),
      Indent + "- 3 Viral Title Options (High CTR).",
      Indent + "- Description Box content (SEO Keyword stuffed).",
      Indent + "- 15 Hidden SEO Tags (Comma separated).",
      Indent + "- Loop Concept (How to connect end to start).",
      "" ]

  /** What the prompt asks for in the X section. */
  const XBrief: seq<string> :=
    [ TitleLine(XSection),
      Indent + "- The Hook Tweet (Punchy, no hashtags).",
      Indent + "- The Thread Body (3 bullet points of value).",
      Indent + "- Engagement Question (To drive replies).",
      Indent + "- 3 Keywords/Tags.",
      "" ]

  /** The closing instructions; the indentation before the closing quotes of
      the template gives the last line. */
  const Closing: seq<string> :=
    [ Indent + "DO NOT include conversational filler. Just the data.",
      Indent + "Format specifically so I can copy paste easily.",
      Indent ]

  /** Everything after the request line. */
  const Brief: seq<string> := Preamble + InstaBrief + ShortsBrief + XBrief + Closing

  /** The prompt, line by line. */
  function PromptLines(topic: string, niche: string, mood: string): seq<string> {
    Intro + ([RequestLine(topic, niche, mood)] + Brief)
  }

  /** Text found in one line is found in the lines joined together. */
  lemma {:induction false} JoinContains(lines: seq<string>, k: nat, sep: string, pat: string)
    requires k < |lines|
    requires Contains(lines[k], pat)
    ensures Contains(Join(lines, sep), pat)
    decreases k
  {
    if |lines| == 1 {
    } else if k == 0 {
      ContainsInfix("", lines[0], sep + Join(lines[1..], sep), pat);
      assert Join(lines, sep) == "" + lines[0] + (sep + Join(lines[1..], sep));
    } else {
      assert lines[1..][k - 1] == lines[k];
      JoinContains(lines[1..], k - 1, sep, pat);
      ContainsInfix(lines[0] + sep, Join(lines[1..], sep), "", pat);
      assert Join(lines, sep) == lines[0] + sep + Join(lines[1..], sep) + "";
    }
  }

  /** The request line carries the three inputs verbatim. */
  lemma RequestLineCarriesInputs(topic: string, niche: string, mood: string)
    ensures Contains(RequestLine(topic, niche, mood), topic)
    ensures Contains(RequestLine(topic, niche, mood), niche)
    ensures Contains(RequestLine(topic, niche, mood), mood)
  {
    var atTopic := Indent + "Topic: " + topic;
    var labels := Labels(niche, mood);
    ContainsAtEnd(Indent + "Topic: ", topic);
    ContainsExtend(atTopic, labels, topic);
    LabelsCarryInputs(niche, mood);
    ContainsInfix(atTopic, labels, "", niche);
    ContainsInfix(atTopic, labels, "", mood);
    assert atTopic + labels + "" == RequestLine(topic, niche, mood);
  }

  lemma LabelsCarryInputs(niche: string, mood: string)
    ensures Contains(Labels(niche, mood), niche)
    ensures Contains(Labels(niche, mood), mood)
  {
    var atNiche := " | Niche: " + niche;
    ContainsAtEnd(" | Niche: ", niche);
    ContainsExtend(atNiche, " | Vibe: ", niche);
    ContainsExtend(atNiche + " | Vibe: ", mood, niche);
    ContainsAtEnd(atNiche + " | Vibe: ", mood);
  }

  /** The line that opens the requested section `title`. */
  function TitleLine(title: string): string {
    Indent + title
  }

  lemma TitleLineContains(title: string)
    ensures Contains(TitleLine(title), title)
  {
    ContainsAtEnd(Indent, title);
  }

  /** The joined lines carry the three inputs verbatim. */
  lemma PromptCarriesInputs(topic: string, niche: string, mood: string)
    ensures Contains(Join(PromptLines(topic, niche, mood), "\n"), topic)
    ensures Contains(Join(PromptLines(topic, niche, mood), "\n"), niche)
    ensures Contains(Join(PromptLines(topic, niche, mood), "\n"), mood)
  {
    var lines := PromptLines(topic, niche, mood);
    RequestLineCarriesInputs(topic, niche, mood);
    assert lines[2] == RequestLine(topic, niche, mood);
    JoinContains(lines, 2, "\n", topic);
    JoinContains(lines, 2, "\n", niche);
    JoinContains(lines, 2, "\n", mood);
  }

  /** The line that declares the separator. */
  function SeparatorLine(sep: string): string {
    Indent + "Provide the output in 3 distinct sections separated by \"" + sep + "\"."
  }

  lemma SeparatorLineContains(sep: string)
    ensures Contains(SeparatorLine(sep), sep)
  {
    OccursBetween(Indent + "Provide the output in 3 distinct sections separated by \"", sep, "\".");
  }

  /** The joined lines declare the separator. */
  lemma PromptDeclaresSeparator(topic: string, niche: string, mood: string)
    ensures Contains(Join(PromptLines(topic, niche, mood), "\n"), DeclaredSeparator)
  {
    SeparatorLineContains(DeclaredSeparator);
    JoinContains(PromptLines(topic, niche, mood), 4, "\n", DeclaredSeparator);
  }

  /** The joined lines name the three sections. */
  lemma PromptNamesSections(topic: string, niche: string, mood: string)
    ensures Contains(Join(PromptLines(topic, niche, mood), "\n"), InstaSection)
    ensures Contains(Join(PromptLines(topic, niche, mood), "\n"), ShortsSection)
    ensures Contains(Join(PromptLines(topic, niche, mood), "\n"), XSection)
  {
    var lines := PromptLines(topic, niche, mood);
    assert lines[6] == TitleLine(InstaSection);
    TitleLineContains(InstaSection);
    JoinContains(lines, 6, "\n", InstaSection);
    assert lines[13] == TitleLine(ShortsSection);
    TitleLineContains(ShortsSection);
    JoinContains(lines, 13, "\n", ShortsSection);
    assert lines[19] == TitleLine(XSection);
    TitleLineContains(XSection);
    JoinContains(lines, 19, "\n", XSection);
  }

  /** The fixed text before the topic. */
  function Head(): string {
    Join(Intro, "\n") + "\n" + Indent + "Topic: "
  }

  /** The text after the topic, which depends only on the two labels. */
  function Tail(niche: string, mood: string): string {
    Labels(niche, mood) + "\n" + Join(Brief, "\n")
  }

  /** The topic sits between a fixed head and a tail that does not depend on it. */
  lemma PromptFrame(topic: string, niche: string, mood: string)
    ensures Join(PromptLines(topic, niche, mood), "\n") == Head() + topic + Tail(niche, mood)
  {
    var r := RequestLine(topic, niche, mood);
    JoinAppend(Intro, [r] + Brief, "\n");
    JoinCons(r, Brief, "\n");
    Splice(Join(Intro, "\n"), "\n", Indent + "Topic: ", topic, Labels(niche, mood), Join(Brief, "\n"));
  }

  /** Regrouping a line `a + t + l` between two newline-joined blocks. */
  lemma Splice(j: string, nl: string, a: string, t: string, l: string, b: string)
    ensures j + nl + (a + t + l + nl + b) == (j + nl + a) + t + (l + nl + b)
  {
  }

  /** The same choices with two different topics give two different prompts. */
  lemma PromptDeterminesTopic(t1: string, t2: string, category: Category, vibe: Vibe)
    requires ComposePrompt(t1, category, vibe) == ComposePrompt(t2, category, vibe)
    ensures t1 == t2
  {
    var tail := Tail(category.Label(), vibe.Label());
    PromptFrame(t1, category.Label(), vibe.Label());
    PromptFrame(t2, category.Label(), vibe.Label());
    var p := Head() + t1 + tail;
    assert p == Head() + t2 + tail;
    assert t1 == p[|Head()|..|p| - |tail|];
  }

  /** The f-string of `get_viral_plan`: the prompt lines joined by newlines. */
  function ComposePrompt(topic: string, category: Category, vibe: Vibe): (prompt: string)
    ensures Contains(prompt, topic)
    ensures Contains(prompt, category.Label())
    ensures Contains(prompt, vibe.Label())
    ensures Contains(prompt, DeclaredSeparator)
    ensures Contains(prompt, InstaSection)
    ensures Contains(prompt, ShortsSection)
    ensures Contains(prompt, XSection)
  {
    PromptCarriesInputs(topic, category.Label(), vibe.Label());
    PromptDeclaresSeparator(topic, category.Label(), vibe.Label());
    PromptNamesSections(topic, category.Label(), vibe.Label());
    Join(PromptLines(topic, category.Label(), vibe.Label()), "\n")
  }
}
