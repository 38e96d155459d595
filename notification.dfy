/**
 * The notification composer: the fixed HTML body of a "new reply" email,
 * its subject line, and the single dispatch through the mail agent.
 */
module Notifications {
  import opened Wrappers
  import opened Strings
  import Mail

  /** The submitted fields, handed to the template (which does not use them). */
  type Fields = map<string, string>

  /** The request options the template reads: the page the reply was made on. */
  datatype Options = Options(origin: Option<string>)

  /** The site data the template and the subject read. */
  datatype SiteData = SiteData(siteName: Option<string>)

  /** The fixed parts of the body, in order, around the two conditional clauses. */
  const Head: string :=
    "\n  <html>\n    <body>\n      Dear human,<br>\n      <br>\n      Someone replied to a comment you subscribed to"
  const Middle: string := ".<br>\n      <br>\n      "
  /** Left for the mail transport to substitute with the list's own unsubscribe URL. */
  const UnsubscribePlaceholder: string := "%mailing_list_unsubscribe_url%"
  const UnsubscribeLead: string :=
    " If you do not wish to receive any further notifications for this thread, <a href=\""
  const UnsubscribeTrail: string :=
    "\">click here</a>.<br>\n      <br>\n      #ftw,<br>\n      -- <a href=\"https://staticman.net\">Staticman</a>\n    </body>\n  </html>\n  "
  const Tail: string := UnsubscribeLead + UnsubscribePlaceholder + UnsubscribeTrail

  /** The " on <strong>…</strong>" clause for a known site name. */
  function SiteClause(siteName: Option<string>): string {
    if Truthy(siteName) then " on <strong>" + siteName.value + "</strong>" else ""
  }

  /** The "Click here" clause linking back to the origin page. */
  function OriginClause(origin: Option<string>): string {
    if Truthy(origin) then "<a href=\"" + origin.value + "\">Click here</a> to see it." else ""
  }

  /** `_buildMessage(fields, options, data)`. */
  function BuildMessage(fields: Fields, options: Options, data: SiteData): (html: string)
    ensures Contains(html, UnsubscribePlaceholder)
    ensures Truthy(data.siteName) ==> Contains(html, " on <strong>" + data.siteName.value + "</strong>")
    ensures Truthy(options.origin) ==> Contains(html, "<a href=\"" + options.origin.value + "\">Click here</a>")
  {
    TemplateShows(data.siteName, options.origin);
    Head + SiteClause(data.siteName) + Middle + OriginClause(options.origin) + Tail
  }

  /** What the filled-in template always and conditionally contains. */
  lemma TemplateShows(siteName: Option<string>, origin: Option<string>)
    ensures var html := Head + SiteClause(siteName) + Middle + OriginClause(origin) + Tail;
      && Contains(html, UnsubscribePlaceholder)
      && (Truthy(siteName) ==> Contains(html, " on <strong>" + siteName.value + "</strong>"))
      && (Truthy(origin) ==> Contains(html, "<a href=\"" + origin.value + "\">Click here</a>"))
  {
    var site := SiteClause(siteName);
    var clause := OriginClause(origin);
    ContainsSelf(UnsubscribePlaceholder);
    ContainsLeft(UnsubscribeLead, UnsubscribePlaceholder, UnsubscribePlaceholder);
    ContainsRight(UnsubscribeLead + UnsubscribePlaceholder, UnsubscribeTrail, UnsubscribePlaceholder);
    ContainsLeft(Head + site + Middle + clause, Tail, UnsubscribePlaceholder);
    if Truthy(siteName) {
      ContainsSelf(site);
      ContainsLeft(Head, site, site);
      ContainsRight(Head + site, Middle, site);
      ContainsRight(Head + site + Middle, clause, site);
      ContainsRight(Head + site + Middle + clause, Tail, site);
    }
    if Truthy(origin) {
      var link := "<a href=\"" + origin.value + "\">Click here</a>";
      assert clause == link + " to see it.";
      ContainsSelf(link);
      ContainsRight(link, " to see it.", link);
      ContainsLeft(Head + site + Middle, clause, link);
      ContainsRight(Head + site + Middle + clause, Tail, link);
    }
  }

  /** The two clauses depend on their value only through what is shown. */
  lemma SiteClauseInjective(a: Option<string>, b: Option<string>)
    ensures SiteClause(a) == SiteClause(b) <==> Shown(a) == Shown(b)
  {
    if Truthy(a) && Truthy(b) {
      ConcatInjective(" on <strong>", a.value, b.value, "</strong>");
    } else if Truthy(a) {
      assert |SiteClause(a)| > 0;
    } else if Truthy(b) {
      assert |SiteClause(b)| > 0;
    }
  }

  lemma OriginClauseInjective(a: Option<string>, b: Option<string>)
    ensures OriginClause(a) == OriginClause(b) <==> Shown(a) == Shown(b)
  {
    if Truthy(a) && Truthy(b) {
      ConcatInjective("<a href=\"", a.value, b.value, "\">Click here</a> to see it.");
    } else if Truthy(a) {
      assert |OriginClause(a)| > 0;
    } else if Truthy(b) {
      assert |OriginClause(b)| > 0;
    }
  }

  /**
   * For the same options, two bodies are equal exactly when the site names
   * shown are: a falsy site name leaves the clause empty, and a truthy one
   * can be told apart from every other.
   */
  lemma {:induction false} BodyDeterminesSiteName(fields: Fields, options: Options, d1: SiteData, d2: SiteData)
    ensures BuildMessage(fields, options, d1) == BuildMessage(fields, options, d2)
        <==> Shown(d1.siteName) == Shown(d2.siteName)
  {
    SecondOfFiveInjective(Head, SiteClause(d1.siteName), SiteClause(d2.siteName), Middle, OriginClause(options.origin), Tail);
    SiteClauseInjective(d1.siteName, d2.siteName);
  }

  /** For the same site data, two bodies are equal exactly when the origins shown are. */
  lemma {:induction false} BodyDeterminesOrigin(fields: Fields, o1: Options, o2: Options, data: SiteData)
    ensures BuildMessage(fields, o1, data) == BuildMessage(fields, o2, data)
        <==> Shown(o1.origin) == Shown(o2.origin)
  {
    ConcatInjective(Head + SiteClause(data.siteName) + Middle, OriginClause(o1.origin), OriginClause(o2.origin), Tail);
    OriginClauseInjective(o1.origin, o2.origin);
  }

  /** The body never depends on the submitted fields. */
  lemma BodyIgnoresFields(f1: Fields, f2: Fields, options: Options, data: SiteData)
    ensures BuildMessage(f1, options, data) == BuildMessage(f2, options, data)
  {
  }

  const SubjectLead: string := "New reply on "
  const PlainSubject: string := "New reply"

  function Quoted(s: string): string {
    "\"" + s + "\""
  }

  /** The subject rule of `send`: name the site, in quotes, when its name is known. */
  function Subject(data: SiteData): (subject: string)
    ensures subject == PlainSubject <==> !Truthy(data.siteName)
    ensures Truthy(data.siteName) ==> Contains(subject, Quoted(data.siteName.value))
  {
    if Truthy(data.siteName) then
      var quoted := Quoted(data.siteName.value);
      ContainsSelf(quoted);
      ContainsLeft(SubjectLead, quoted, quoted);
      SubjectLead + quoted
    else
      PlainSubject
  }

  /** Reads back the site name a subject line names, if any. */
  function SiteNameOfSubject(subject: string): (siteName: Option<string>)
    ensures siteName.Some? ==> Truthy(siteName)
  {
    var n := |SubjectLead| + 1;
    if |subject| > n + 1 && subject[..n] == SubjectLead + "\"" && subject[|subject| - 1] == '"'
    then Some(subject[n..|subject| - 1])
    else None
  }

  /** The subject carries exactly the site name that is shown, and nothing else. */
  lemma {:induction false} SubjectRoundTrip(data: SiteData)
    ensures SiteNameOfSubject(Subject(data)) == Shown(data.siteName)
  {
    var s := Subject(data);
    if Truthy(data.siteName) {
      var name := data.siteName.value;
      var n := |SubjectLead| + 1;
      assert s == (SubjectLead + "\"") + name + "\"";
      assert s[..n] == SubjectLead + "\"";
      assert s[n..|s| - 1] == name;
    }
  }

  /** The request `send` passes to `messages.create`. */
  function Envelope(fromAddress: string, to: string, fields: Fields, options: Options, data: SiteData): Mail.Message {
    Mail.Message("Staticman <" + fromAddress + ">", to, Subject(data), BuildMessage(fields, options, data))
  }

  class Notification {
    const mailAgent: Mail.MailAgent
    const domain: string
    /** The configured sender address (`email.fromAddress`). */
    const fromAddress: string

    constructor (mailAgent: Mail.MailAgent, domain: string, fromAddress: string)
      ensures this.mailAgent == mailAgent && this.domain == domain && this.fromAddress == fromAddress
    {
      this.mailAgent := mailAgent;
      this.domain := domain;
      this.fromAddress := fromAddress;
    }

    /**
     * Issues exactly one `messages.create` on the sending domain, and
     * whatever the transport answers, reports nothing back: a rejected
     * dispatch is swallowed.
     */
    method Send(to: string, fields: Fields, options: Options, data: SiteData)
      requires mailAgent.Valid()
      modifies mailAgent
      ensures mailAgent.Valid()
      ensures mailAgent.lists == old(mailAgent.lists)
      ensures mailAgent.calls == old(mailAgent.calls)
                                 + [Mail.CreateMessage(domain, Envelope(fromAddress, to, fields, options, data))]
    {
      var subject := Subject(data);
      var message := Mail.Message("Staticman <" + fromAddress + ">", to, subject, BuildMessage(fields, options, data));
      var delivered := mailAgent.MessagesCreate(domain, message);
      // the source only logs the transport's answer, delivered or not
    }
  }
}
