/** The e-mails API route: the loaded e-mail list is indexed into three
    dictionaries keyed by each record's `user_email` field, where a later
    e-mail with the same key replaces an earlier one. */
module EmailIndex {
  import opened Common

  datatype EmailMetadata = EmailMetadata(received: string, spf: string, dkim: string, messageId: string)
  datatype DmarcInfo = DmarcInfo(status: string, domain: string, policy: string)
  datatype EmailHeader = EmailHeader(from: string, subject: string, protocol: string,
                                     dmarc: DmarcInfo, metadata: EmailMetadata)
  datatype EmailData = EmailData(userEmail: string, header: EmailHeader, links: seq<string>, text: string)

  /** The response body: the three dictionaries, or the failure answer. */
  datatype EmailsResponse =
    | Indexed(headers: map<string, EmailHeader>, links: map<string, seq<string>>, texts: map<string, string>)
    | Failure(message: string, status: int)

  const LoadFailureMessage := "Failed to load data"
  const LoadFailureStatus := 500

  function HeaderOf(e: EmailData): (h: EmailHeader) { e.header }
  function LinksOf(e: EmailData): (links: seq<string>) { e.links }
  function TextOf(e: EmailData): (text: string) { e.text }

  /** The dictionary that writing `field(e)` under `e.userEmail`, for every
      e-mail in order, leaves behind. */
  function IndexBy<V>(emails: seq<EmailData>, field: EmailData -> V): (index: map<string, V>)
    decreases |emails|
  {
    if emails == [] then map[]
    else IndexBy(emails[..|emails| - 1], field)[emails[|emails| - 1].userEmail := field(emails[|emails| - 1])]
  }

  /** The addresses that occur in the list. */
  function UserEmails(emails: seq<EmailData>): (addresses: set<string>)
  {
    set i | 0 <= i < |emails| :: emails[i].userEmail
  }

  /** The e-mail at `i` is the last one with its address. */
  ghost predicate LastWithAddress(emails: seq<EmailData>, i: int)
  {
    0 <= i < |emails| && forall j :: i < j < |emails| ==> emails[j].userEmail != emails[i].userEmail
  }

  /** `GET`: `source` is the parsed e-mail list, or None for every path
      that reaches the handler's `catch`: the read or the parse failed, the
      parsed value is `null` or has no `emails` array, or a record is `null`
      (the entries written before it are then discarded). Each e-mail
      writes its header, links and text under its address, in list order. */
  method Get(source: Option<seq<EmailData>>) returns (response: EmailsResponse)
    ensures source.None? ==> response == Failure(LoadFailureMessage, LoadFailureStatus)
    ensures source.Some? ==> response == Indexed(IndexBy(source.value, HeaderOf),
                                                 IndexBy(source.value, LinksOf),
                                                 IndexBy(source.value, TextOf))
  {
    if source.None? {
      return Failure(LoadFailureMessage, LoadFailureStatus);
    }
    var emails := source.value;
    var headers: map<string, EmailHeader> := map[];
    var links: map<string, seq<string>> := map[];
    var texts: map<string, string> := map[];

    var i := 0;
    while i < |emails|
      invariant 0 <= i <= |emails|
      invariant headers == IndexBy(emails[..i], HeaderOf)
      invariant links == IndexBy(emails[..i], LinksOf)
      invariant texts == IndexBy(emails[..i], TextOf)
    {
      var email := emails[i];
      assert emails[..i + 1][..i] == emails[..i];
      headers := headers[email.userEmail := email.header];
      links := links[email.userEmail := email.links];
      texts := texts[email.userEmail := email.text];
      i := i + 1;
    }
    assert emails[..i] == emails;
    response := Indexed(headers, links, texts);
  }

  // ---------------------------------------------------------------------
  // Properties of the index

  /** The keys are exactly the addresses of the list. */
  lemma {:induction false} IndexKeys<V>(emails: seq<EmailData>, field: EmailData -> V)
    ensures IndexBy(emails, field).Keys == UserEmails(emails)
    decreases |emails|
  {
    if emails != [] {
      var init := emails[..|emails| - 1];
      IndexKeys(init, field);
      assert UserEmails(emails) == UserEmails(init) + {emails[|emails| - 1].userEmail} by {
        forall a | a in UserEmails(emails) ensures a in UserEmails(init) + {emails[|emails| - 1].userEmail} {
          var i :| 0 <= i < |emails| && emails[i].userEmail == a;
          if i < |emails| - 1 {
            assert init[i] == emails[i];
          }
        }
        forall a | a in UserEmails(init) ensures a in UserEmails(emails) {
          var i :| 0 <= i < |init| && init[i].userEmail == a;
          assert emails[i] == init[i];
        }
      }
    }
  }

  /** Last write wins: an address maps to the field of the last e-mail that has it. */
  lemma {:induction false} IndexLastWins<V>(emails: seq<EmailData>, field: EmailData -> V, i: int)
    requires LastWithAddress(emails, i)
    ensures emails[i].userEmail in IndexBy(emails, field)
    ensures IndexBy(emails, field)[emails[i].userEmail] == field(emails[i])
    decreases |emails|
  {
    var n := |emails| - 1;
    if i < n {
      var init := emails[..n];
      assert init[i] == emails[i];
      assert LastWithAddress(init, i);
      IndexLastWins(init, field, i);
    }
  }

  /** Every stored value is the field of some e-mail with that address. */
  lemma {:induction false} IndexValuesFromList<V>(emails: seq<EmailData>, field: EmailData -> V, a: string)
    requires a in IndexBy(emails, field)
    ensures exists i :: LastWithAddress(emails, i) && emails[i].userEmail == a
                        && IndexBy(emails, field)[a] == field(emails[i])
    decreases |emails|
  {
    var n := |emails| - 1;
    if emails[n].userEmail == a {
      assert LastWithAddress(emails, n);
    } else {
      var init := emails[..n];
      IndexValuesFromList(init, field, a);
      var i :| LastWithAddress(init, i) && init[i].userEmail == a && IndexBy(init, field)[a] == field(init[i]);
      assert emails[i] == init[i];
      assert LastWithAddress(emails, i);
    }
  }

  /** An empty list gives an empty dictionary. */
  lemma IndexEmpty<V>(field: EmailData -> V)
    ensures IndexBy([], field) == map[]
  {
  }

  /** A dictionary has at most as many keys as the list has e-mails, and as
      many when all addresses differ. */
  lemma {:induction false} IndexSize<V>(emails: seq<EmailData>, field: EmailData -> V)
    ensures |IndexBy(emails, field)| <= |emails|
    ensures (forall i, j :: 0 <= i < j < |emails| ==> emails[i].userEmail != emails[j].userEmail)
      ==> |IndexBy(emails, field)| == |emails|
    decreases |emails|
  {
    if emails != [] {
      var n := |emails| - 1;
      var init := emails[..n];
      IndexSize(init, field);
      IndexKeys(init, field);
      var m := IndexBy(init, field);
      if (forall i, j :: 0 <= i < j < |emails| ==> emails[i].userEmail != emails[j].userEmail) {
        assert emails[n].userEmail !in m;
        forall i, j | 0 <= i < j < |init| ensures init[i].userEmail != init[j].userEmail {
          assert init[i] == emails[i] && init[j] == emails[j];
        }
      }
    }
  }

  /** The three dictionaries of one response share their key set. */
  lemma SameKeys(emails: seq<EmailData>)
    ensures IndexBy(emails, HeaderOf).Keys == IndexBy(emails, LinksOf).Keys == IndexBy(emails, TextOf).Keys
  {
  }
}
