/**
  Message processing (services/ai.service.js): the decision order of
  processMessage, the post-processing of the two intent verdicts, and the
  booking template.

  Every Gemini call is an input: the text it answers with, or None when the
  call rejects (or answers without text, which makes `.trim()` throw).
 */
module Assistant {
  import opened Js
  import opened Products
  import opened Bookings

  /** What the four possible Gemini calls answer for one message. */
  datatype OracleAnswers = OracleAnswers(
    bookingVerdict: Option<string>,   // detectBookingIntent's call
    symptomVerdict: Option<string>,   // detectSymptomIntent's call
    symptomReply: Option<string>,     // the guidance call for a symptom
    chatReply: Option<string>)        // the normal chat call

  // Written as two literals: Dafny's verifier cannot look at single characters
  // of a string literal this long, and ApologyUntagged needs its first one.
  const Apology := "Sorry, system thoda busy hai. " + "Thodi der baad try karein."
  const BookingIntent := "INTENT:BOOKING"
  const ProductHeader := "Here are some products that may help:\n\n"
  const ProductFooter := "\nIf you need guidance, tell me your problem."
  const BookingWord := "BOOKING"
  const SymptomWord := "SYSTEM"

  // ---------------------------------------------------------------- verdicts

  /** `response.text.trim().toUpperCase() === word`. */
  predicate IsVerdict(answer: string, word: string) {
    Upper(Trim(answer)) == word
  }

  /** A verdict is positive exactly when the answer, stripped of surrounding white
      space, spells the word in any ASCII case. */
  lemma VerdictPadded(before: string, w: string, after: string, word: string)
    requires AllSpace(before) && AllSpace(after)
    requires w == [] || (!IsSpace(w[0]) && !IsSpace(w[|w| - 1]))
    ensures IsVerdict(before + w + after, word) <==> Upper(w) == word
  {
    TrimPadded(before, w, after);
  }

  /** An answer whose trimmed text is longer or shorter than the word is negative. */
  lemma VerdictNeedsExactLength(answer: string, word: string)
    requires |Trim(answer)| != |word|
    ensures !IsVerdict(answer, word)
  {
    assert |Upper(Trim(answer))| == |Trim(answer)|;
  }

  // ---------------------------------------------------------------- product reply

  /** `${p.brand_name} (${p.composition}) - ₹${p.price}\n` */
  function ProductLine(p: Product): string {
    p.brandName + " (" + p.composition + ") - \U{20B9}" + p.price + "\n"
  }

  /** The lines for the given products, in order. */
  function Listing(ps: seq<Product>): string
    decreases |ps|
  {
    if |ps| == 0 then "" else Listing(ps[..|ps| - 1]) + ProductLine(ps[|ps| - 1])
  }

  /** `xs.slice(0, n)`. */
  function Take<T>(xs: seq<T>, n: nat): (r: seq<T>)
    ensures |r| == if |xs| < n then |xs| else n
    ensures r == xs[..|r|]
  {
    if |xs| < n then xs else xs[..n]
  }

  /** The reply to a message that mentions products: the header, the first three
      matches and the footer. */
  function ProductReply(matches: seq<Product>): string {
    ProductHeader + Listing(Take(matches, 3)) + ProductFooter
  }

  // ---------------------------------------------------------------- processMessage

  /** The string processMessage(text) resolves to. */
  function AiReply(catalogue: seq<Product>, text: string, o: OracleAnswers): string {
    var matches := FindProduct(catalogue, Lower(text));
    if |matches| > 0 then ProductReply(matches)
    else if o.bookingVerdict.None? || o.symptomVerdict.None? then Apology
    else if IsVerdict(o.bookingVerdict.value, BookingWord) then BookingIntent
    else if IsVerdict(o.symptomVerdict.value, SymptomWord) then
      (if o.symptomReply.None? then Apology else Trim(o.symptomReply.value))
    else if o.chatReply.None? then Apology
    else Trim(o.chatReply.value)
  }

  /** processMessage: the product check, then the verdicts, then generated text. */
  method ProcessMessage(catalogue: seq<Product>, text: string, o: OracleAnswers) returns (reply: string)
    ensures reply == AiReply(catalogue, text, o)
  {
    var msg := Lower(text);
    var matched := FindProduct(catalogue, msg);
    if |matched| > 0 {
      reply := ProductHeader;
      var shown := Take(matched, 3);
      for i := 0 to |shown|
        invariant reply == ProductHeader + Listing(shown[..i])
      {
        assert shown[..i + 1][..i] == shown[..i];
        reply := reply + ProductLine(shown[i]);
      }
      assert shown[..|shown|] == shown;
      reply := reply + ProductFooter;
      return;
    }
    if o.bookingVerdict.None? || o.symptomVerdict.None? {
      // Promise.all rejects when either check fails
      return Apology;
    }
    var isBooking := IsVerdict(o.bookingVerdict.value, BookingWord);
    var isSymptom := IsVerdict(o.symptomVerdict.value, SymptomWord);
    if isBooking {
      return BookingIntent;
    }
    if isSymptom {
      if o.symptomReply.None? {
        return Apology;
      }
      return Trim(o.symptomReply.value);
    }
    if o.chatReply.None? {
      return Apology;
    }
    reply := Trim(o.chatReply.value);
  }

  /** A product match answers without consulting any oracle, lists at most three
      products and keeps the fixed header and footer. */
  lemma ProductFirst(catalogue: seq<Product>, text: string, o1: OracleAnswers, o2: OracleAnswers)
    requires |FindProduct(catalogue, text)| > 0
    ensures AiReply(catalogue, text, o1) == AiReply(catalogue, text, o2)
    ensures AiReply(catalogue, text, o1) == ProductHeader + Listing(Take(FindProduct(catalogue, text), 3)) + ProductFooter
  {
    FindProductIgnoresQueryCase(catalogue, text);
  }

  /** The listed products are the first matches, in catalogue order: the first
      three when there are more. */
  lemma ProductReplyFirstThree(matches: seq<Product>, rest: seq<Product>)
    requires |matches| == 3
    ensures Listing(Take(matches + rest, 3)) == ProductLine(matches[0]) + ProductLine(matches[1]) + ProductLine(matches[2])
  {
    assert Take(matches + rest, 3) == matches;
    assert matches[..2][..1] == matches[..1] && matches[..2][1] == matches[1];
    assert matches[..1][..0] == [];
    assert Listing(matches[..1]) == ProductLine(matches[0]);
    assert matches[..3 - 1] == matches[..2];
  }

  /** With no product match and both checks answered, a positive booking verdict
      gives "INTENT:BOOKING" whatever the symptom verdict is. */
  lemma BookingBeatsSymptom(catalogue: seq<Product>, text: string, o: OracleAnswers, symptom: string)
    requires |FindProduct(catalogue, text)| == 0
    requires o.bookingVerdict.Some? && o.symptomVerdict.Some?
    requires IsVerdict(o.bookingVerdict.value, BookingWord)
    ensures AiReply(catalogue, text, o) == BookingIntent
    ensures AiReply(catalogue, text, o.(symptomVerdict := Some(symptom))) == BookingIntent
  {
    FindProductIgnoresQueryCase(catalogue, text);
  }

  /** Every failure of a call that is made gives the apology; a failure of a call
      that is not made changes nothing. */
  lemma FailureGivesApology(catalogue: seq<Product>, text: string, o: OracleAnswers)
    requires |FindProduct(catalogue, text)| == 0
    ensures o.bookingVerdict.None? || o.symptomVerdict.None? ==> AiReply(catalogue, text, o) == Apology
    ensures o.bookingVerdict.Some? && o.symptomVerdict.Some? && !IsVerdict(o.bookingVerdict.value, BookingWord) ==>
              (IsVerdict(o.symptomVerdict.value, SymptomWord) && o.symptomReply.None? ==> AiReply(catalogue, text, o) == Apology)
              && (!IsVerdict(o.symptomVerdict.value, SymptomWord) && o.chatReply.None? ==> AiReply(catalogue, text, o) == Apology)
  {
    FindProductIgnoresQueryCase(catalogue, text);
  }

  /** The reply is always one of four things: the product reply, "INTENT:BOOKING",
      a trimmed generated text, or the apology. */
  lemma ReplyShapes(catalogue: seq<Product>, text: string, o: OracleAnswers)
    ensures var r := AiReply(catalogue, text, o);
            || (|FindProduct(catalogue, text)| > 0 && r == ProductReply(FindProduct(catalogue, text)))
            || r == BookingIntent
            || r == Apology
            || (o.symptomReply.Some? && r == Trim(o.symptomReply.value))
            || (o.chatReply.Some? && r == Trim(o.chatReply.value))
  {
    FindProductIgnoresQueryCase(catalogue, text);
  }

  // ---------------------------------------------------------------- getBookingTemplate

  const Greeting := "Sure, I can help you book your consultation."
  const Instruction := "Please reply in this format:"

  /** The five label lines of the template, in order. */
  const FormLabels: seq<string> := ["Name:", "Mobile:", "Problem:", "Preferred Date:", "Preferred Time:"]

  /** The lines of the template literal: it starts and ends with a line break. */
  const TemplateLines: seq<string> := IntroLines + FormLabels + [""]

  /** The lines before the labels. */
  const IntroLines: seq<string> := ["", Greeting, "", Instruction, ""]

  /** getBookingTemplate(). */
  function BookingTemplate(): string {
    Join(TemplateLines, '\n')
  }

  /** The template's lines are the literal's lines. */
  lemma TemplateLinesSplit()
    ensures Split(BookingTemplate(), '\n') == TemplateLines
  {
    TemplateLinesUnbroken();
    SplitJoin(TemplateLines, '\n');
  }

  /** No line of the template literal holds a line break. */
  lemma TemplateLinesUnbroken()
    ensures forall i | 0 <= i < |TemplateLines| :: '\n' !in TemplateLines[i]
  {
    assert forall i | 0 <= i < |TemplateLines| :: '\n' !in TemplateLines[i];
  }

  /** The five label lines sit at lines 5 to 9 of the template, in order. */
  lemma TemplateLabels()
    ensures |Split(BookingTemplate(), '\n')| == 11
    ensures Split(BookingTemplate(), '\n')[5..10] == ["Name:", "Mobile:", "Problem:", "Preferred Date:", "Preferred Time:"]
  {
    TemplateLinesSplit();
    assert TemplateLines[5..10] == FormLabels;
  }

  /** A line ending in its only colon has an empty value and is skipped. */
  lemma LabelLineSkipped(line: string)
    requires |line| > 1 && line[|line| - 1] == ':' && ':' !in line[..|line| - 1]
    ensures LineEntry(line).None?
  {
    assert line == line[..|line| - 1] + [':'] + "";
    EntryOf(line[..|line| - 1], "", "");
  }

  lemma GreetingHasNoColon()
    ensures ':' !in Greeting
  {
  }

  lemma InstructionEndsInColon()
    ensures |Instruction| > 1 && Instruction[|Instruction| - 1] == ':' && ':' !in Instruction[..|Instruction| - 1]
  {
  }

  /** No line of the template is a key/value line. */
  lemma TemplateLineSkipped(i: nat)
    requires i < |TemplateLines|
    ensures LineEntry(TemplateLines[i]).None?
  {
    forall k | 0 <= k < |IntroLines| ensures LineEntry(IntroLines[k]).None? {
      IntroLineSkipped(k);
    }
    forall k | 0 <= k < |FormLabels| ensures LineEntry(FormLabels[k]).None? {
      FormLabelSkipped(k);
    }
    NoColonSkipped("");
    PartsSkipped(IntroLines, FormLabels, [""], i);
  }

  /** A line of three concatenated groups of skipped lines is skipped. */
  lemma PartsSkipped(a: seq<string>, b: seq<string>, c: seq<string>, i: nat)
    requires forall k | 0 <= k < |a| :: LineEntry(a[k]).None?
    requires forall k | 0 <= k < |b| :: LineEntry(b[k]).None?
    requires forall k | 0 <= k < |c| :: LineEntry(c[k]).None?
    requires i < |a + b + c|
    ensures LineEntry((a + b + c)[i]).None?
  {
    if i < |a| {
      assert (a + b + c)[i] == a[i];
    } else if i < |a| + |b| {
      assert (a + b + c)[i] == b[i - |a|];
    } else {
      assert (a + b + c)[i] == c[i - |a| - |b|];
    }
  }

  lemma IntroLineSkipped(i: nat)
    requires i < 5
    ensures LineEntry(IntroLines[i]).None?
  {
    if i == 1 {
      GreetingLineSkipped();
    } else if i == 3 {
      InstructionLineSkipped();
    } else {
      NoColonSkipped("");
    }
  }

  lemma GreetingLineSkipped()
    ensures LineEntry(Greeting).None?
  {
    GreetingHasNoColon();
    NoColonSkipped(Greeting);
  }

  lemma InstructionLineSkipped()
    ensures LineEntry(Instruction).None?
  {
    InstructionEndsInColon();
    LabelLineSkipped(Instruction);
  }

  lemma FormLabelSkipped(k: nat)
    requires k < 5
    ensures LineEntry(FormLabels[k]).None?
  {
    FormLabel(k);
    var line := FormLabels[k];
    assert line[..|line| - 1] == FormNames[k];
    LabelLineSkipped(line);
  }

  /** Sent back as it is, the template carries no booking data: every label line
      has an empty value. */
  lemma TemplateParsesEmpty()
    ensures Parsed(BookingTemplate()) == map[]
  {
    TemplateLinesSplit();
    forall i | 0 <= i < |TemplateLines| ensures LineEntry(TemplateLines[i]).None? {
      TemplateLineSkipped(i);
    }
    NoEntryParsesEmpty(BookingTemplate());
  }

  // ---------------------------------------------------------------- the filled-in template

  /** The labels without their colon, and those after `trim().toLowerCase()`. */
  const FormNames: seq<string> := ["Name", "Mobile", "Problem", "Preferred Date", "Preferred Time"]
  const FormKeys: seq<string> := ["name", "mobile", "problem", "preferred date", "preferred time"]

  /** The property each template label assigns. */
  const FormFields: seq<Field> := [Name, Phone, Problem, Date, Time]

  /** Label `i` is its name and a colon; the name has no colon, no surrounding
      white space, and lower-cases to the key. */
  lemma FormLabel(i: nat)
    requires i < 5
    ensures FormLabels[i] == FormNames[i] + [':']
    ensures FormNames[i] != "" && ':' !in FormNames[i] && '\n' !in FormNames[i]
    ensures !IsSpace(FormNames[i][0]) && !IsSpace(FormNames[i][|FormNames[i]| - 1])
    ensures Lower(FormNames[i]) == FormKeys[i]
  {
  }

  /** The reply a customer writes by putting a value after each label. */
  function FormReply(values: seq<string>): string
    requires |values| == 5
  {
    Join(FormLines(values), '\n')
  }

  function FormLines(values: seq<string>): (lines: seq<string>)
    requires |values| == 5
    ensures |lines| == 5 && forall i | 0 <= i < 5 :: lines[i] == FormLabels[i] + values[i]
  {
    [FormLabels[0] + values[0], FormLabels[1] + values[1], FormLabels[2] + values[2],
     FormLabels[3] + values[3], FormLabels[4] + values[4]]
  }

  /** A label line `name:value` with a colon-free value gives the lower-cased
      label and the trimmed value. */
  lemma LabelledLineEntry(name: string, key: string, v: string)
    requires name != "" && ':' !in name && !IsSpace(name[0]) && !IsSpace(name[|name| - 1]) && Lower(name) == key
    requires ':' !in v && v != ""
    ensures LineEntry(name + [':'] + v) == Some(Entry(key, Trim(v)))
  {
    EntryOf(name, v, v);
    TrimUnchanged(name);
  }

  /** A filled label line gives the label's key and the trimmed value. */
  lemma FormLineEntry(i: nat, v: string)
    requires i < 5 && ':' !in v && v != ""
    ensures LineEntry(FormLabels[i] + v) == Some(Entry(FormKeys[i], Trim(v)))
  {
    FormLabel(i);
    assert FormLabels[i] + v == FormNames[i] + [':'] + v;
    LabelledLineEntry(FormNames[i], FormKeys[i], v);
  }

  /** Each template label passes exactly the label test of its own property. */
  lemma FormKeyHits(i: nat)
    requires i < 5
    ensures forall f: Field :: LabelHits(FormKeys[i]).For(f) <==> FormIndex(f) == i
  {
    if i == 0 { NameKeyHits(); }
    else if i == 1 { MobileKeyHits(); }
    else if i == 2 { ProblemKeyHits(); }
    else if i == 3 { DateKeyHits(); }
    else { TimeKeyHits(); }
  }

  lemma NameKeyHits()
    ensures LabelHits("name") == Hits(true, false, false, false, false)
  {
    assert OccursAt("name", "name", 0);
    NotContainedChar("name", "mobile", 'o'); NotContainedChar("name", "phone", 'o');
    NotContainedChar("name", "problem", 'o'); NotContainedChar("name", "date", 'd');
    NotContainedChar("name", "time", 't');
  }

  lemma MobileKeyHits()
    ensures LabelHits("mobile") == Hits(false, true, false, false, false)
  {
    assert OccursAt("mobile", "mobile", 0);
    NotContainedChar("mobile", "name", 'n'); NotContainedChar("mobile", "problem", 'p');
    NotContainedChar("mobile", "date", 'a'); NotContainedChar("mobile", "time", 't');
  }

  lemma ProblemKeyHits()
    ensures LabelHits("problem") == Hits(false, false, true, false, false)
  {
    assert OccursAt("problem", "problem", 0);
    NotContainedChar("problem", "name", 'n'); NotContainedChar("problem", "mobile", 'i');
    NotContainedChar("problem", "phone", 'h'); NotContainedChar("problem", "date", 'd');
    NotContainedChar("problem", "time", 't');
  }

  lemma DateKeyHits()
    ensures LabelHits("preferred date") == Hits(false, false, false, true, false)
  {
    assert OccursAt("preferred date", "date", 10);
    NotContainedChar("preferred date", "name", 'n'); NotContainedChar("preferred date", "mobile", 'o');
    NotContainedChar("preferred date", "phone", 'o'); NotContainedChar("preferred date", "problem", 'o');
    NotContainedChar("preferred date", "time", 'i');
  }

  lemma TimeKeyHits()
    ensures LabelHits("preferred time") == Hits(false, false, false, false, true)
  {
    assert OccursAt("preferred time", "time", 10);
    NotContainedChar("preferred time", "name", 'n'); NotContainedChar("preferred time", "mobile", 'o');
    NotContainedChar("preferred time", "phone", 'o'); NotContainedChar("preferred time", "problem", 'o');
    NotContainedChar("preferred time", "date", 'a');
  }

  /** The position of a property's label in the template. */
  function FormIndex(f: Field): (i: nat)
    ensures i < 5 && FormFields[i] == f
  {
    match f
    case Name => 0
    case Phone => 1
    case Problem => 2
    case Date => 3
    case Time => 4
  }

  /** Filling every label line of the template with a colon-free value that is not
      blank yields all five properties, each holding its trimmed value. */
  lemma FilledFormParsed(values: seq<string>)
    requires |values| == 5
    requires forall i | 0 <= i < 5 :: ':' !in values[i] && '\n' !in values[i] && Trim(values[i]) != ""
    ensures forall f: Field :: f in Parsed(FormReply(values)) && Parsed(FormReply(values))[f] == Trim(values[FormIndex(f)])
  {
    FormReplyLines(values);
    forall f: Field ensures f in Fold(FormLines(values)) && Fold(FormLines(values))[f] == Trim(values[FormIndex(f)]) {
      FormLinesField(values, f);
    }
  }

  /** The lines of a filled-in reply are its five label lines. */
  lemma FormReplyLines(values: seq<string>)
    requires |values| == 5
    requires forall i | 0 <= i < 5 :: '\n' !in values[i]
    ensures Split(FormReply(values), '\n') == FormLines(values)
  {
    var lines := FormLines(values);
    forall i | 0 <= i < 5 ensures '\n' !in lines[i] {
      FormLabel(i);
    }
    SplitJoin(lines, '\n');
  }

  /** Property `f` is assigned by its own label line and by no later line. */
  lemma FormLinesField(values: seq<string>, f: Field)
    requires |values| == 5
    requires forall i | 0 <= i < 5 :: ':' !in values[i] && values[i] != ""
    ensures f in Fold(FormLines(values)) && Fold(FormLines(values))[f] == Trim(values[FormIndex(f)])
  {
    var lines := FormLines(values);
    var i := FormIndex(f);
    FormLineSets(values, i, f);
    forall j | i < j < 5 ensures !Sets(lines[j], f) {
      FormLineSets(values, j, f);
    }
    FormLineEntry(i, values[i]);
    FoldLastSetter(lines, f, i);
  }

  /** Filled label line `j` assigns exactly the property of its label. */
  lemma FormLineSets(values: seq<string>, j: nat, f: Field)
    requires |values| == 5 && j < 5
    requires ':' !in values[j] && values[j] != ""
    ensures Sets(FormLines(values)[j], f) <==> FormIndex(f) == j
  {
    FormLineEntry(j, values[j]);
    FormKeyHits(j);
  }

  /** The whole template sent back with every label line filled in: the
      greeting and instruction lines, the five filled label lines, and the
      closing empty line. */
  function FilledTemplate(values: seq<string>): string
    requires |values| == 5
  {
    Join(IntroLines + FormLines(values) + [""], '\n')
  }

  /** Filling the label lines of the whole template with colon-free values that
      are not blank yields all five properties, each holding its trimmed value,
      and the result passes saveBooking's completeness check. */
  lemma FilledTemplateParsed(values: seq<string>)
    requires |values| == 5
    requires forall i | 0 <= i < 5 :: ':' !in values[i] && '\n' !in values[i] && Trim(values[i]) != ""
    ensures forall f: Field :: f in Parsed(FilledTemplate(values)) && Parsed(FilledTemplate(values))[f] == Trim(values[FormIndex(f)])
    ensures Complete(Parsed(FilledTemplate(values)))
  {
    var lines := IntroLines + FormLines(values) + [""];
    FilledTemplateLines(values);
    forall f: Field ensures f in Fold(lines) && Fold(lines)[f] == Trim(values[FormIndex(f)]) {
      FilledTemplateField(IntroLines, values, f);
    }
  }

  lemma FilledTemplateLines(values: seq<string>)
    requires |values| == 5
    requires forall i | 0 <= i < 5 :: '\n' !in values[i]
    ensures Split(FilledTemplate(values), '\n') == IntroLines + FormLines(values) + [""]
  {
    var lines := IntroLines + FormLines(values) + [""];
    TemplateLinesUnbroken();
    forall i | 0 <= i < |lines| ensures '\n' !in lines[i] {
      if i < 5 {
        assert lines[i] == TemplateLines[i];
      } else if i < 10 {
        FormLabel(i - 5);
        assert lines[i] == FormLabels[i - 5] + values[i - 5];
      }
    }
    SplitJoin(lines, '\n');
  }

  /** Property `f` is assigned by its own filled label line and by no later
      line, whatever lines come before the labels. */
  lemma FilledTemplateField(intro: seq<string>, values: seq<string>, f: Field)
    requires |values| == 5
    requires forall i | 0 <= i < 5 :: ':' !in values[i] && values[i] != ""
    ensures var lines := intro + FormLines(values) + [""];
            f in Fold(lines) && Fold(lines)[f] == Trim(values[FormIndex(f)])
  {
    var form := FormLines(values);
    var lines := intro + form + [""];
    var n := |intro|;
    var k := FormIndex(f);
    assert lines[n + k] == form[k];
    FormLineSets(values, k, f);
    forall j | n + k < j < |lines| ensures !Sets(lines[j], f) {
      LaterLineQuiet(intro, values, f, j);
    }
    FormLineEntry(k, values[k]);
    FoldLastSetter(lines, f, n + k);
  }

  lemma LaterLineQuiet(intro: seq<string>, values: seq<string>, f: Field, j: nat)
    requires |values| == 5
    requires forall i | 0 <= i < 5 :: ':' !in values[i] && values[i] != ""
    requires |intro| + FormIndex(f) < j < |intro| + 6
    ensures !Sets((intro + FormLines(values) + [""])[j], f)
  {
    var lines := intro + FormLines(values) + [""];
    var n := |intro|;
    if j < n + 5 {
      assert lines[j] == FormLines(values)[j - n];
      FormLineSets(values, j - n, f);
    } else {
      assert lines[j] == "";
      NoColonSkipped("");
    }
  }

  /** Such a reply passes saveBooking's completeness check. */
  lemma FilledFormSaves(values: seq<string>)
    requires |values| == 5
    requires forall i | 0 <= i < 5 :: ':' !in values[i] && '\n' !in values[i] && Trim(values[i]) != ""
    ensures Complete(Parsed(FormReply(values)))
    ensures SaveOutcome(Parsed(FormReply(values)), false) == Some(SaveResponse(true, None))
  {
    FilledFormParsed(values);
  }
}
