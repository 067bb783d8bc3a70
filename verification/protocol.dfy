/** The two halves of app.py talk to each other only through the generated
    text: the prompt tells the generator which separator and which section
    titles to use, and the display code splits on that separator and deletes
    those titles. */
module Protocol {
  import opened PyStr
  import Composer
  import Splitter

  /** An answer laid out as the prompt asks, each section opening with the
      title the prompt gave it: the prompt names that separator and those
      titles, and each tab shows its own section without the title. */
  lemma LaidOutAnswerIsShown(topic: string, category: Composer.Category, vibe: Composer.Vibe,
                             body1: string, body2: string, body3: string)
    requires !Contains(body1, Composer.InstaSection)
    requires !Contains(body2, Composer.ShortsSection)
    requires !Contains(body3, Composer.XSection)
    requires Clean(Composer.InstaSection + body1, Composer.DeclaredSeparator)
    requires Clean(Composer.ShortsSection + body2, Composer.DeclaredSeparator)
    requires !Contains(Composer.XSection + body3, Composer.DeclaredSeparator)
    ensures Contains(Composer.ComposePrompt(topic, category, vibe), Splitter.Separator)
    ensures Contains(Composer.ComposePrompt(topic, category, vibe), Splitter.InstaTitle)
    ensures Contains(Composer.ComposePrompt(topic, category, vibe), Splitter.ShortsTitle)
    ensures Contains(Composer.ComposePrompt(topic, category, vibe), Splitter.XTitle)
    ensures Splitter.Display(Composer.InstaSection + body1 + Composer.DeclaredSeparator
                             + (Composer.ShortsSection + body2) + Composer.DeclaredSeparator
                             + (Composer.XSection + body3))
            == Splitter.Plan(body1, body2, body3)
  {
    var t1, t2, t3 := Composer.InstaSection, Composer.ShortsSection, Composer.XSection;
    assert "" + t1 + body1 == t1 + body1;
    assert "" + t2 + body2 == t2 + body2;
    assert "" + t3 + body3 == t3 + body3;
    CleanEmpty(t1);
    CleanEmpty(t2);
    CleanEmpty(t3);
    Splitter.DisplayLaidOut("", body1, "", body2, "", body3);
    assert "" + body1 == body1 && "" + body2 == body2 && "" + body3 == body3;
  }
}
