/**
 * The email branch shared by the wrap-up tools: whether an email is attempted,
 * what it carries, and the status text each tool returns for each outcome.
 */
module EmailStatus {
  import opened Wrappers

  /**
   * `resend.api_key` (RESEND_API_KEY, or "" when unset) and
   * `os.getenv("EMAIL_TO")` (None when unset).
   */
  datatype EmailConfig = EmailConfig(apiKey: string, emailTo: Option<string>)

  /** `resend.api_key and email_to`: both present and non-empty. */
  predicate Configured(config: EmailConfig) {
    config.apiKey != "" && config.emailTo.Some? && config.emailTo.value != ""
  }

  /** What `resend.Emails.send` does when called: returns, or raises with `str(e)`. */
  datatype SendOutcome = Accepted | Raised(message: string)

  /** The message handed to `resend.Emails.send`. */
  datatype Email = Email(sender: string, to: string, subject: string, text: string)

  const SENDER := "Coach <onboarding@resend.dev>"
  const TEST_SUBJECT := "Test — coaching email setup"
  const TEST_TEXT := "If you're reading this, email delivery is working."

  /** What became of the email of one wrap-up call. */
  datatype Delivery = Emailed(to: string) | EmailFailed(message: string) | EmailSkipped

  /** The email branch: skipped without configuration, else the send's outcome. */
  function Deliver(config: EmailConfig, outcome: SendOutcome): (d: Delivery)
    ensures d.EmailSkipped? <==> !Configured(config)
    ensures d.Emailed? <==> Configured(config) && outcome.Accepted?
    ensures d.Emailed? ==> d.to == config.emailTo.value
    ensures d.EmailFailed? ==> outcome == Raised(d.message)
  {
    if !Configured(config) then EmailSkipped
    else match outcome
      case Accepted => Emailed(config.emailTo.value)
      case Raised(message) => EmailFailed(message)
  }

  /** The emails a call attempts: one to EMAIL_TO when configured, none otherwise. */
  function Attempted(config: EmailConfig, subject: string, text: string): (sent: seq<Email>)
    ensures |sent| <= 1 && (|sent| == 1 <==> Configured(config))
    ensures |sent| == 1 ==> sent[0].to == config.emailTo.value && sent[0].sender == SENDER
    ensures |sent| == 1 ==> sent[0].subject == subject && sent[0].text == text
  {
    if Configured(config) then [Email(SENDER, config.emailTo.value, subject, text)] else []
  }

  /** Which wrap-up tool is reporting. */
  datatype SummaryKind = SessionSummary | ReviewSummary

  function Subject(kind: SummaryKind): string {
    match kind
    case SessionSummary => "Weekly coaching summary"
    case ReviewSummary => "Weekly review reflections"
  }

  function ChatPrefix(kind: SummaryKind): string {
    match kind
    case SessionSummary => "Summary sent to chat"
    case ReviewSummary => "Review summary sent to chat"
  }

  const EMAILED_TO := " and emailed to "
  const EMAIL_FAILED := ". Email failed: "
  const EMAIL_SKIPPED := ". Email skipped" + " (missing RESEND_API_KEY or EMAIL_TO)."

  /** The status `send_session_summary` or `send_review_summary` returns. */
  function WrapUpStatus(kind: SummaryKind, d: Delivery): (status: string)
    ensures ChatPrefix(kind) <= status
    ensures d.Emailed? ==> status[|ChatPrefix(kind)|..] == EMAILED_TO + d.to
    ensures d.EmailFailed? ==> status[|ChatPrefix(kind)|..] == EMAIL_FAILED + d.message
    ensures d.EmailSkipped? ==> status[|ChatPrefix(kind)|..] == EMAIL_SKIPPED
  {
    match d
    case Emailed(to) => ChatPrefix(kind) + EMAILED_TO + to
    case EmailFailed(message) => ChatPrefix(kind) + EMAIL_FAILED + message
    case EmailSkipped => ChatPrefix(kind) + EMAIL_SKIPPED
  }

  /**
   * The status tells the tools apart and tells skipped, failed and delivered
   * apart, and it names the recipient or the error exactly.
   */
  lemma WrapUpStatusInjective(k1: SummaryKind, d1: Delivery, k2: SummaryKind, d2: Delivery)
    requires WrapUpStatus(k1, d1) == WrapUpStatus(k2, d2)
    ensures k1 == k2 && d1 == d2
  {
    var s := WrapUpStatus(k1, d1);
    assert "Summary sent to chat"[0] == 'S' && "Review summary sent to chat"[0] == 'R';
    assert s[0] == ChatPrefix(k1)[0] == ChatPrefix(k2)[0];
    var p := |ChatPrefix(k1)|;
    var t := s[p..];
    assert EMAILED_TO[0] == ' ' && EMAIL_FAILED[0] == '.' && EMAIL_SKIPPED[0] == '.';
    assert EMAIL_FAILED[8] == 'f' && EMAIL_SKIPPED[8] == 's';
    assert t[0] == (if d1.Emailed? then ' ' else '.') == (if d2.Emailed? then ' ' else '.');
    if !d1.Emailed? {
      assert t[8] == (if d1.EmailFailed? then 'f' else 's') == (if d2.EmailFailed? then 'f' else 's');
    }
    match d1
    case Emailed(to) =>
      assert to == t[|EMAILED_TO|..] == d2.to;
    case EmailFailed(message) =>
      assert message == t[|EMAIL_FAILED|..] == d2.message;
    case EmailSkipped =>
  }

  /** `send_test_email`'s status. */
  function TestEmailStatus(config: EmailConfig, outcome: SendOutcome): (status: string)
    ensures !Configured(config) ==> "Test email not sent. RESEND_API_KEY=" <= status
    ensures !Configured(config) && config.apiKey == "" ==> "Test email not sent. RESEND_API_KEY=missing" <= status
    ensures Configured(config) && outcome.Accepted? ==> status == "Test email sent to " + config.emailTo.value
    ensures Configured(config) && outcome.Raised? ==> status == "Test email failed: " + outcome.message
  {
    if !Configured(config) then
      "Test email not sent. RESEND_API_KEY=" + (if config.apiKey != "" then "set" else "missing")
        + ", EMAIL_TO=" + (if config.emailTo.Some? && config.emailTo.value != "" then config.emailTo.value else "missing")
    else match outcome
      case Accepted => "Test email sent to " + config.emailTo.value
      case Raised(message) => "Test email failed: " + message
  }

  /**
   * `send_test_email` tells not-sent, sent and failed apart, and when it sent
   * or failed, it names the recipient or the error exactly.
   */
  lemma TestEmailStatusDistinguishes(c1: EmailConfig, o1: SendOutcome, c2: EmailConfig, o2: SendOutcome)
    requires TestEmailStatus(c1, o1) == TestEmailStatus(c2, o2)
    ensures Configured(c1) == Configured(c2)
    ensures Configured(c1) ==> Deliver(c1, o1) == Deliver(c2, o2)
  {
    var s := TestEmailStatus(c1, o1);
    assert forall c, o :: TestEmailStatus(c, o)[11] ==
                          if !Configured(c) then 'n' else if o.Accepted? then 's' else 'f';
    if Configured(c1) {
      match o1
      case Accepted =>
        assert c1.emailTo.value == s[|"Test email sent to "|..] == c2.emailTo.value;
      case Raised(message) =>
        assert message == s[|"Test email failed: "|..] == o2.message;
    }
  }
}
