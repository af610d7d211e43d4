/** Choosing the SMTP server for an e-mail address. */
module Smtp {
  import opened Strings

  datatype SmtpSettings = SmtpSettings(host: string, port: int)

  /** The providers with a known server. */
  const Providers: map<string, SmtpSettings> := map[
    "gmail.com"      := SmtpSettings("smtp.gmail.com", 587),
    "yahoo.com"      := SmtpSettings("smtp.mail.yahoo.com", 587),
    "yahoo.in"       := SmtpSettings("smtp.mail.yahoo.com", 587),
    "outlook.com"    := SmtpSettings("smtp.office365.com", 587),
    "hotmail.com"    := SmtpSettings("smtp.office365.com", 587),
    "live.com"       := SmtpSettings("smtp.office365.com", 587),
    "icloud.com"     := SmtpSettings("smtp.mail.me.com", 587),
    "zoho.com"       := SmtpSettings("smtp.zoho.com", 587),
    "protonmail.com" := SmtpSettings("smtp.protonmail.com", 587)
  ]

  /** Every known provider is reached on port 587 at an `smtp.` host. */
  lemma ProvidersUseSubmission()
    ensures forall d :: d in Providers ==>
              Providers[d].port == 587 && StartsWith(Providers[d].host, "smtp.")
  {
    var hosts := ["smtp.gmail.com", "smtp.mail.yahoo.com", "smtp.office365.com",
                  "smtp.mail.me.com", "smtp.zoho.com", "smtp.protonmail.com"];
    forall h | h in hosts ensures StartsWith(h, "smtp.") {
      assert h[..5] == "smtp.";
    }
    forall d | d in Providers ensures Providers[d].host in hosts {
    }
  }

  /** `email.split("@")[-1].lower()`. */
  function MailDomain(email: string): (r: string)
    ensures '@' !in email ==> r == Lower(email)
  {
    Lower(AfterLast(email, '@'))
  }

  /** The table entry for a known domain, otherwise `smtp.<domain>` on port 587. */
  function GetSmtpSettings(email: string): (r: SmtpSettings)
    ensures r.port == 587
    ensures StartsWith(r.host, "smtp.")
    ensures MailDomain(email) in Providers ==> r == Providers[MailDomain(email)]
    ensures MailDomain(email) !in Providers ==> r.host == "smtp." + MailDomain(email)
  {
    ProvidersUseSubmission();
    var domain := MailDomain(email);
    if domain in Providers then Providers[domain] else SmtpSettings("smtp." + domain, 587)
  }

  /** Only the text after the last `@` matters, and its case does not. */
  lemma SettingsOfAddress(local: string, domain: string)
    requires '@' !in domain
    ensures MailDomain(local + "@" + domain) == Lower(domain)
    ensures GetSmtpSettings(local + "@" + domain) == GetSmtpSettings(Lower(domain))
  {
    assert local + "@" + domain == local + ['@'] + domain;
    AfterLastOfJoin(local, '@', domain);
    var l := Lower(domain);
    assert '@' !in l by {
      forall i | 0 <= i < |l| ensures l[i] != '@' {
        assert l[i] == LowerChar(domain[i]);
      }
    }
    LowerIdempotent(domain);
    assert MailDomain(l) == l;
  }
}
