/** The one-sentence planning request built from the form (the `topic` string). */
module PlanRequest {
  import opened Chat

  const Opening := "Plan a "
  const DaysTo := "-day trip to "
  const Under := " under $"
  const With := " with "

  /** The request without the optional preference clause. */
  function Base(f: Form): string
  {
    Opening + f.duration + DaysTo + f.destination + Under + f.budget
  }

  /** The request sent to the agent: the base sentence, followed by
      " with <preference>" exactly when a preference was typed. */
  function Request(f: Form): (r: string)
    ensures Base(f) <= r
    ensures f.preference == "" <==> r == Base(f)
    ensures f.preference != "" ==> r[|Base(f)|..] == With + f.preference
  {
    if f.preference != "" then Base(f) + With + f.preference else Base(f)
  }

  /** The length of each field; together with the request they determine the form. */
  datatype Widths = Widths(duration: nat, destination: nat, budget: nat, preference: nat)

  function WidthsOf(f: Form): Widths
  {
    Widths(|f.duration|, |f.destination|, |f.budget|, |f.preference|)
  }

  /** Reads the fields back out of a request whose field widths are known; None when
      the text does not have the request's shape for those widths. */
  function Fields(r: string, w: Widths): Option<Form>
  {
    var a := |Opening|;
    var b := a + w.duration;
    var c := b + |DaysTo|;
    var d := c + w.destination;
    var e := d + |Under|;
    var g := e + w.budget;
    var tail := if w.preference == 0 then g else g + |With|;
    if |r| == tail + w.preference && r[..a] == Opening && r[b..c] == DaysTo && r[d..e] == Under
       && (w.preference == 0 || r[g..tail] == With)
    then Some(Form(r[c..d], r[a..b], r[e..g], r[tail..]))
    else None
  }

  /** Where each field of the base sentence sits. */
  lemma BaseLayout(f: Form)
    ensures var b := |Opening| + |f.duration|;
            var d := b + |DaysTo| + |f.destination|;
            var g := d + |Under| + |f.budget|;
            |Base(f)| == g && Base(f)[..|Opening|] == Opening && Base(f)[|Opening|..b] == f.duration
            && Base(f)[b..b + |DaysTo|] == DaysTo && Base(f)[b + |DaysTo|..d] == f.destination
            && Base(f)[d..d + |Under|] == Under && Base(f)[d + |Under|..g] == f.budget
  {
    var s1 := Opening + f.duration;
    var s2 := s1 + DaysTo;
    var s3 := s2 + f.destination;
    var s4 := s3 + Under;
    var s5 := s4 + f.budget;
    assert s5 == Base(f);
    assert s5[..|s4|] == s4 && s4[..|s3|] == s3 && s3[..|s2|] == s2 && s2[..|s1|] == s1;
    assert s1[..|Opening|] == Opening && s1[|Opening|..] == f.duration;
    assert s2[|s1|..] == DaysTo && s3[|s2|..] == f.destination;
    assert s4[|s3|..] == Under && s5[|s4|..] == f.budget;
  }

  /** Every field appears verbatim at its place: reading them back recovers the form. */
  lemma FieldsRoundTrip(f: Form)
    ensures Fields(Request(f), WidthsOf(f)) == Some(f)
  {
    var r := Request(f);
    var base := Base(f);
    var g := |base|;
    BaseLayout(f);
    assert r[..g] == base;
    if f.preference == "" {
      assert r[g..] == f.preference;
    } else {
      assert r[g..g + |With|] == With;
      assert r[g + |With|..] == f.preference;
      var b := |Opening| + |f.duration|;
      var d := b + |DaysTo| + |f.destination|;
      assert r[..|Opening|] == base[..|Opening|] && r[|Opening|..b] == base[|Opening|..b];
      assert r[b..b + |DaysTo|] == base[b..b + |DaysTo|] && r[b + |DaysTo|..d] == base[b + |DaysTo|..d];
      assert r[d..d + |Under|] == base[d..d + |Under|] && r[d + |Under|..g] == base[d + |Under|..g];
    }
  }

  /** Conversely, any text from which Fields reads a form is that form's request. */
  lemma FieldsSound(r: string, w: Widths, f: Form)
    requires Fields(r, w) == Some(f)
    ensures Request(f) == r && WidthsOf(f) == w
  {
    var a := |Opening|;
    var b := a + w.duration;
    var c := b + |DaysTo|;
    var d := c + w.destination;
    var e := d + |Under|;
    var g := e + w.budget;
    var tail := if w.preference == 0 then g else g + |With|;
    assert f == Form(r[c..d], r[a..b], r[e..g], r[tail..]);
    Split(r, 0, a, b);
    Split(r, 0, b, c);
    Split(r, 0, c, d);
    Split(r, 0, d, e);
    Split(r, 0, e, g);
    assert r[..g] == Base(f);
    Split(r, 0, g, |r|);
    if w.preference != 0 {
      Split(r, g, tail, |r|);
    }
  }

  lemma Split(r: string, i: nat, j: nat, k: nat)
    requires i <= j <= k <= |r|
    ensures r[i..k] == r[i..j] + r[j..k]
  {
  }

  /** For fixed field widths the request determines the form. */
  lemma RequestInjective(f1: Form, f2: Form)
    requires WidthsOf(f1) == WidthsOf(f2) && Request(f1) == Request(f2)
    ensures f1 == f2
  {
    FieldsRoundTrip(f1);
    FieldsRoundTrip(f2);
  }

  /** Without the widths it does not: a budget ending in " with ..." reads like a preference. */
  lemma RequestAmbiguous()
    ensures Request(Form("Tokyo", "5", "2000 with food", "")) == Request(Form("Tokyo", "5", "2000", "food"))
  {
    var f1 := Form("Tokyo", "5", "2000 with food", "");
    var f2 := Form("Tokyo", "5", "2000", "food");
    assert Request(f1) == Base(f1);
    assert Request(f2) == Base(f2) + With + "food";
    assert Base(f1) == Base(f2) + " with food";
  }

  /** The worked example of a request with no preference. */
  lemma TokyoExample()
    ensures Request(Form("Tokyo", "5", "2000", "")) == "Plan a 5-day trip to Tokyo under $2000"
  {
    var f := Form("Tokyo", "5", "2000", "");
    assert Request(f) == Base(f);
    assert Base(f) == "Plan a " + "5" + "-day trip to " + "Tokyo" + " under $" + "2000";
  }
}
