/**
 * The notifications of src/notifications/notificationService.js: an email
 * for every notification when email is set up, an SMS only for stock alerts
 * and order confirmations, the SMS body cut to 1600 characters, and the
 * rewrite of the HTML message into the SMS text.
 */
module NotificationService {
  import opened Text
  import opened Wrappers
  import opened Prices

  // ---------------------------------------------------------------------
  // Global regular-expression replacement
  // ---------------------------------------------------------------------

  /**
   * `s.replace(/re/g, repl)` from position `i`, for a pattern whose match at
   * a position is given by `m` as a length (0 for no match): left to right,
   * each match replaced, the scan resuming after it.
   */
  function ReplaceFrom(s: string, i: nat, m: (string, nat) -> nat, repl: string): string
    requires i <= |s|
    decreases |s| - i
  {
    if i == |s| then ""
    else
      var n := m(s, i);
      if 0 < n <= |s| - i then repl + ReplaceFrom(s, i + n, m, repl)
      else [s[i]] + ReplaceFrom(s, i + 1, m, repl)
  }

  function ReplaceAll(s: string, m: (string, nat) -> nat, repl: string): string
  {
    ReplaceFrom(s, 0, m, repl)
  }

  /** A pattern that matches nowhere leaves the text as it is. */
  lemma {:induction false} ReplaceNothing(s: string, i: nat, m: (string, nat) -> nat, repl: string)
    requires i <= |s|
    requires forall j :: i <= j < |s| ==> m(s, j) == 0
    ensures ReplaceFrom(s, i, m, repl) == s[i..]
    decreases |s| - i
  {
    if i < |s| {
      ReplaceNothing(s, i + 1, m, repl);
      assert s[i..] == [s[i]] + s[i + 1..];
    }
  }

  /** The length of `lit` when it occurs at `i`, else 0. */
  function LiteralAt(s: string, i: nat, lit: string): nat
  {
    if OccursAt(s, lit, i) then |lit| else 0
  }

  /** `c` is the ASCII letter `lower` in either case (`/i` only folds ASCII letters onto ASCII letters). */
  predicate LetterIs(c: char, lower: char)
  {
    c == lower || ('a' <= lower <= 'z' && c as int == lower as int - 32)
  }

  /** `<h[1-6]>` and `<\/h[1-6]>`, any case. */
  function HeadingAt(s: string, i: nat, closing: bool): nat
  {
    var k := if closing then i + 2 else i + 1;
    if k + 3 <= |s| && s[i] == '<' && (closing ==> s[i + 1] == '/')
       && LetterIs(s[k], 'h') && '1' <= s[k + 1] <= '6' && s[k + 2] == '>'
    then k + 3 - i else 0
  }

  /** `<p>` and `<\/p>`, any case. */
  function ParagraphAt(s: string, i: nat, closing: bool): nat
  {
    var k := if closing then i + 2 else i + 1;
    if k + 2 <= |s| && s[i] == '<' && (closing ==> s[i + 1] == '/') && LetterIs(s[k], 'p') && s[k + 1] == '>'
    then k + 2 - i else 0
  }

  /** `<li>` and `<\/li>`, any case. */
  function ItemAt(s: string, i: nat, closing: bool): nat
  {
    var k := if closing then i + 2 else i + 1;
    if k + 3 <= |s| && s[i] == '<' && (closing ==> s[i + 1] == '/')
       && LetterIs(s[k], 'l') && LetterIs(s[k + 1], 'i') && s[k + 2] == '>'
    then k + 3 - i else 0
  }

  /** `<br\s*\/?>`, any case: white space, then an optional slash, then `>`. */
  function LineBreakAt(s: string, i: nat): nat
  {
    if i + 3 <= |s| && s[i] == '<' && LetterIs(s[i + 1], 'b') && LetterIs(s[i + 2], 'r') then
      var j := SkipSpace(s, i + 3);
      var k := if j < |s| && s[j] == '/' then j + 1 else j;
      if k < |s| && s[k] == '>' then k + 1 - i else 0
    else 0
  }

  /** `<[^>]*>`: from a `<` to the first `>` after it. */
  function TagAt(s: string, i: nat): nat
  {
    if i < |s| && s[i] == '<' then
      var e := RunEnd(s, i + 1, c => c != '>');
      if e < |s| then e + 1 - i else 0
    else 0
  }

  /** The last line feed in `s[lo..j]`, if any. */
  function LastNewline(s: string, lo: nat, j: nat): (k: nat)
    requires lo <= j <= |s|
    ensures k == lo || (lo < k <= j && s[k - 1] == '\n')
    ensures forall q :: k <= q < j ==> s[q] != '\n'
    decreases j
  {
    if j == lo then lo
    else if s[j - 1] == '\n' then j
    else LastNewline(s, lo, j - 1)
  }

  /** `\n\s*\n`: a line feed, then white space up to its last line feed. */
  function BlankLinesAt(s: string, i: nat): nat
  {
    if i < |s| && s[i] == '\n' then
      var e := SkipSpace(s, i + 1);
      var k := LastNewline(s, i + 1, e);
      if k > i + 1 then k - i else 0
    else 0
  }

  /** The mis-encoded bullet the list items become (the UTF-8 bytes of "•" read as Windows-1252). */
  const Bullet: string := "â€¢ "

  /** The first seven rewrites: headings, paragraphs, line breaks and list items become line breaks and bullets. */
  function BlockTagsToBreaks(html: string): string
  {
    var s1 := ReplaceAll(html, (s, i) => HeadingAt(s, i, false), "\n");
    var s2 := ReplaceAll(s1, (s, i) => HeadingAt(s, i, true), "\n");
    var s3 := ReplaceAll(s2, (s, i) => ParagraphAt(s, i, false), "\n");
    var s4 := ReplaceAll(s3, (s, i) => ParagraphAt(s, i, true), "\n");
    var s5 := ReplaceAll(s4, LineBreakAt, "\n");
    var s6 := ReplaceAll(s5, (s, i) => ItemAt(s, i, false), Bullet);
    ReplaceAll(s6, (s, i) => ItemAt(s, i, true), "\n")
  }

  function NbspAt(s: string, i: nat): nat { LiteralAt(s, i, "&nbsp;") }
  function AmpAt(s: string, i: nat): nat { LiteralAt(s, i, "&amp;") }
  function LtAt(s: string, i: nat): nat { LiteralAt(s, i, "&lt;") }
  function GtAt(s: string, i: nat): nat { LiteralAt(s, i, "&gt;") }

  /** `&nbsp;`, `&amp;`, `&lt;`, `&gt;` decoded one after the other, each over the whole text. */
  function DecodeEntities(s0: string): string
  {
    var s1 := ReplaceAll(s0, NbspAt, " ");
    var s2 := ReplaceAll(s1, AmpAt, "&");
    var s3 := ReplaceAll(s2, LtAt, "<");
    ReplaceAll(s3, GtAt, ">")
  }

  /** `htmlToText`: block tags to breaks, other tags removed, entities decoded, blank runs collapsed, then trimmed. */
  function HtmlToText(html: string): (text: string)
    ensures |text| == 0 || (!IsSpace(text[0]) && !IsSpace(text[|text| - 1]))
  {
    var stripped := ReplaceAll(BlockTagsToBreaks(html), TagAt, "");
    var decoded := DecodeEntities(stripped);
    Trim(ReplaceAll(decoded, BlankLinesAt, "\n\n"))
  }

  /** Text without `<` has no tag: the tag rewrites leave it as it is. */
  lemma TagFreeTextUntouched(s: string)
    requires forall j :: 0 <= j < |s| ==> s[j] != '<'
    ensures ReplaceAll(BlockTagsToBreaks(s), TagAt, "") == s
  {
    ReplaceNothing(s, 0, (s, i) => HeadingAt(s, i, false), "\n");
    ReplaceNothing(s, 0, (s, i) => HeadingAt(s, i, true), "\n");
    ReplaceNothing(s, 0, (s, i) => ParagraphAt(s, i, false), "\n");
    ReplaceNothing(s, 0, (s, i) => ParagraphAt(s, i, true), "\n");
    ReplaceNothing(s, 0, LineBreakAt, "\n");
    ReplaceNothing(s, 0, (s, i) => ItemAt(s, i, false), Bullet);
    ReplaceNothing(s, 0, (s, i) => ItemAt(s, i, true), "\n");
    ReplaceNothing(s, 0, TagAt, "");
    assert s[0..] == s;
  }

  /** Text without a line feed has no blank run to collapse. */
  lemma LineFreeTextUntouched(s: string)
    requires forall j :: 0 <= j < |s| ==> s[j] != '\n'
    ensures ReplaceAll(s, BlankLinesAt, "\n\n") == s
  {
    ReplaceNothing(s, 0, BlankLinesAt, "\n\n");
    assert s[0..] == s;
  }

  /** A literal occurring at `j` starts with its first character there. */
  lemma OccursAtHead(s: string, lit: string, j: nat)
    requires |lit| > 0 && OccursAt(s, lit, j)
    ensures s[j] == lit[0]
  {
    assert s[j..j + |lit|][0] == s[j];
  }

  /** A literal occurring at `j` has its second character at `j + 1`. */
  lemma OccursAtSecond(s: string, lit: string, j: nat)
    requires |lit| > 1
    ensures OccursAt(s, lit, j) ==> s[j + 1] == lit[1]
  {
    if OccursAt(s, lit, j) {
      assert s[j..j + |lit|][1] == s[j + 1];
    }
  }

  /** Text without `&` has no entity: decoding leaves it as it is. */
  lemma EntityFreeTextUntouched(s: string)
    requires forall j :: 0 <= j < |s| ==> s[j] != '&'
    ensures DecodeEntities(s) == s
  {
    forall j | 0 <= j < |s|
      ensures NbspAt(s, j) == 0 && AmpAt(s, j) == 0 && LtAt(s, j) == 0 && GtAt(s, j) == 0
    {
      if OccursAt(s, "&nbsp;", j) { OccursAtHead(s, "&nbsp;", j); }
      if OccursAt(s, "&amp;", j) { OccursAtHead(s, "&amp;", j); }
      if OccursAt(s, "&lt;", j) { OccursAtHead(s, "&lt;", j); }
      if OccursAt(s, "&gt;", j) { OccursAtHead(s, "&gt;", j); }
    }
    ReplaceNothing(s, 0, NbspAt, " ");
    ReplaceNothing(s, 0, AmpAt, "&");
    ReplaceNothing(s, 0, LtAt, "<");
    ReplaceNothing(s, 0, GtAt, ">");
    assert s[0..] == s;
  }

  /** Text with no tag, entity or line feed reaches the SMS only trimmed. */
  lemma PlainTextOnlyTrimmed(s: string)
    requires forall j :: 0 <= j < |s| ==> s[j] != '<' && s[j] != '&' && s[j] != '\n'
    ensures HtmlToText(s) == Trim(s)
  {
    TagFreeTextUntouched(s);
    EntityFreeTextUntouched(s);
    LineFreeTextUntouched(s);
  }

  /** `&amp;` is decoded before `&lt;`, so a double-escaped `<` is decoded twice. */
  lemma DoubleEscapeDecoded(s: string)
    requires s == "&amp;lt;"
    ensures DecodeEntities(s) == "<"
  {
    forall j | 0 <= j < |s| ensures NbspAt(s, j) == 0 {
      if j + 6 <= |s| { assert s[j..j + 6][1] != 'n'; }
    }
    ReplaceNothing(s, 0, NbspAt, " ");
    assert s[0..] == s;
    assert s[5..] == "lt;";
    ReplaceNothing(s, 5, AmpAt, "&");
    assert OccursAt(s, "&amp;", 0);
    assert ReplaceAll(s, AmpAt, "&") == "&lt;";
    var t := "&lt;";
    assert OccursAt(t, "&lt;", 0);
    assert ReplaceFrom(t, 4, LtAt, "<") == "";
    assert ReplaceAll(t, LtAt, "<") == "<";
    ReplaceNothing("<", 0, GtAt, ">");
    assert "<"[0..] == "<";
  }

  lemma EscapedTagLt(s: string)
    requires s == "&lt;b&gt;"
    ensures ReplaceAll(s, LtAt, "<") == "<b&gt;"
  {
    forall j | 5 <= j < |s| ensures LtAt(s, j) == 0 {
      if j + 4 <= |s| { assert s[j..j + 4][1] != 'l'; }
    }
    ReplaceNothing(s, 5, LtAt, "<");
    assert s[5..] == "&gt;";
    assert LtAt(s, 4) == 0;
    assert ReplaceFrom(s, 4, LtAt, "<") == "b&gt;";
    assert OccursAt(s, "&lt;", 0);
  }

  lemma EscapedTagGt(t: string)
    requires t == "<b&gt;"
    ensures ReplaceAll(t, GtAt, ">") == "<b>"
  {
    assert OccursAt(t, "&gt;", 2);
    assert ReplaceFrom(t, 6, GtAt, ">") == "";
    assert ReplaceFrom(t, 2, GtAt, ">") == ">";
    assert GtAt(t, 1) == 0 && GtAt(t, 0) == 0;
    assert ReplaceFrom(t, 1, GtAt, ">") == "b>";
  }

  /** Entities are decoded after the tags were stripped, so an escaped tag comes out as a tag. */
  lemma EscapedTagDecoded(s: string)
    requires s == "&lt;b&gt;"
    ensures DecodeEntities(s) == "<b>"
  {
    forall j | 0 <= j < |s| ensures NbspAt(s, j) == 0 && AmpAt(s, j) == 0 {
      OccursAtSecond(s, "&nbsp;", j);
      OccursAtSecond(s, "&amp;", j);
    }
    ReplaceNothing(s, 0, NbspAt, " ");
    ReplaceNothing(s, 0, AmpAt, "&");
    assert s[0..] == s;
    EscapedTagLt(s);
    EscapedTagGt("<b&gt;");
  }

  /** The whole rewrite on a double-escaped `<`. */
  lemma DoubleEscapeDecodesTwice(s: string)
    requires s == "&amp;lt;"
    ensures HtmlToText(s) == "<"
  {
    TagFreeTextUntouched(s);
    DoubleEscapeDecoded(s);
    var t := DecodeEntities(s);
    LineFreeTextUntouched(t);
    assert Trim(t) == t;
  }

  /** The whole rewrite on an escaped tag: it reaches the SMS as a literal tag. */
  lemma EscapedTagSurvives(s: string)
    requires s == "&lt;b&gt;"
    ensures HtmlToText(s) == "<b>"
  {
    TagFreeTextUntouched(s);
    EscapedTagDecoded(s);
    var t := DecodeEntities(s);
    LineFreeTextUntouched(t);
    assert Trim(t) == t;
  }

  // ---------------------------------------------------------------------
  // SMS and channel selection
  // ---------------------------------------------------------------------

  const SmsLimit: nat := 1600

  /** The SMS body: the subject, a blank line, the text. */
  function SmsBody(subject: string, text: string): string
  {
    subject + "\n\n" + text
  }

  /** The SMS truncation: a body over 1600 characters keeps its first 1597 and gains "...". */
  function Truncated(body: string): (r: string)
    ensures |r| <= SmsLimit
    ensures |body| <= SmsLimit ==> r == body
    ensures |body| > SmsLimit ==> |r| == SmsLimit && r[..SmsLimit - 3] == body[..SmsLimit - 3] && r[SmsLimit - 3..] == "..."
  {
    if |body| > SmsLimit then body[..SmsLimit - 3] + "..." else body
  }

  /** One channel's entry in the list `sendNotification` returns. */
  datatype Notice = Notice(channel: string, success: bool, error: Option<string>)

  /** Whether an SMS goes out for this type of notification. */
  predicate SmsType(kind: string)
  {
    kind == "stock-alert" || kind == "order-success"
  }

  class Notifier {
    const isEmailEnabled: bool
    const isSmsEnabled: bool

    /**
     * `initialize`: email needs an address, an SMTP user and password and a
     * passing verification; SMS needs an account id and token. A failing
     * verification throws, which disables both before SMS is set up.
     */
    constructor (emailConfigured: bool, verifies: bool, smsConfigured: bool)
      ensures isEmailEnabled <==> emailConfigured && verifies
      ensures isSmsEnabled <==> smsConfigured && (!emailConfigured || verifies)
    {
      isEmailEnabled := emailConfigured && verifies;
      isSmsEnabled := smsConfigured && (!emailConfigured || verifies);
    }

    /** `isEnabled`: either channel. */
    predicate IsEnabled()
      reads this
    {
      isEmailEnabled || isSmsEnabled
    }

    /**
     * `sendNotification`: an email entry when email is on, an SMS entry when
     * SMS is on and the type calls for one; a failed send becomes an entry
     * with its error. The SMS carries the truncated text of the message.
     */
    method SendNotification(subject: string, html: string, kind: string, emailError: Option<string>, smsError: Option<string>)
      returns (notices: seq<Notice>, sms: Option<string>)
      ensures |notices| == (if isEmailEnabled then 1 else 0) + (if isSmsEnabled && SmsType(kind) then 1 else 0)
      ensures isEmailEnabled ==> notices[0] == Notice("email", emailError.None?, emailError)
      ensures isSmsEnabled && SmsType(kind) ==> notices[|notices| - 1] == Notice("sms", smsError.None?, smsError)
      ensures sms.Some? <==> isSmsEnabled && SmsType(kind)
      ensures sms.Some? ==> sms.value == Truncated(SmsBody(subject, HtmlToText(html))) && |sms.value| <= SmsLimit
      ensures |notices| > 0 ==> IsEnabled()
    {
      notices := [];
      sms := None;
      if isEmailEnabled {
        notices := notices + [Notice("email", emailError.None?, emailError)];
      }
      if isSmsEnabled && SmsType(kind) {
        var text := HtmlToText(html);
        sms := Some(Truncated(SmsBody(subject, text)));
        notices := notices + [Notice("sms", smsError.None?, smsError)];
      }
    }
  }
}
