/** The social-media screen: one record of five platform links, `@handle` shorthand
    expanded per platform, and create/update of the record. */
module SocialMedia {
  import opened Common
  import opened Http

  datatype SocialLinks = SocialLinks(telegram: string, facebook: string, x: string, instagram: string, youtube: string)

  datatype SocialRecord = SocialRecord(id: nat, links: SocialLinks)

  function EmptyLinks(): SocialLinks {
    SocialLinks("", "", "", "", "")
  }

  /** The URL prefix a platform puts in front of a bare handle; "" for an unknown platform. */
  function HandlePrefix(platform: string): (p: string)
    ensures platform == "telegram" ==> p == "https://t.me/"
    ensures platform == "x" ==> p == "https://x.com/"
    ensures platform == "instagram" ==> p == "https://instagram.com/"
    ensures platform == "youtube" ==> p == "https://youtube.com/@"
    ensures platform == "facebook" ==> p == "https://facebook.com/"
    ensures platform !in ["telegram", "x", "instagram", "youtube", "facebook"] ==> p == ""
  {
    if platform == "telegram" then "https://t.me/"
    else if platform == "x" then "https://x.com/"
    else if platform == "instagram" then "https://instagram.com/"
    else if platform == "youtube" then "https://youtube.com/@"
    else if platform == "facebook" then "https://facebook.com/"
    else ""
  }

  /** Blank input becomes ""; `@name` on a known platform becomes that platform's URL for
      `name`; anything else (including `@name` on an unknown platform) is kept as typed. */
  function FormatUrl(url: string, platform: string): (r: string)
    ensures IsBlank(url) ==> r == ""
    ensures !IsBlank(url) && StartsWith(url, "@") && HandlePrefix(platform) != ""
            ==> r == HandlePrefix(platform) + url[1..]
    ensures !IsBlank(url) && (!StartsWith(url, "@") || HandlePrefix(platform) == "") ==> r == url
  {
    if IsBlank(url) then ""
    else if StartsWith(url, "@") && HandlePrefix(platform) != "" then HandlePrefix(platform) + url[1..]
    else url
  }

  /** Formatting an already formatted link changes nothing. */
  lemma FormatUrlIdempotent(url: string, platform: string)
    ensures FormatUrl(FormatUrl(url, platform), platform) == FormatUrl(url, platform)
  {
    var r := FormatUrl(url, platform);
    if !IsBlank(url) && StartsWith(url, "@") && HandlePrefix(platform) != "" {
      assert r[0] == 'h' && !IsWhitespace(r[0]);
      assert !IsBlank(r);
      assert !StartsWith(r, "@");
    }
  }

  datatype Validation = Validation(isValid: bool, formattedUrl: string)

  /** `validateUrl`: blank is valid and formats to ""; otherwise valid when the URL parser
      `parses` accepts it or it is an `@` followed by at least one character. */
  function ValidateUrl(url: string, platform: string, parses: string -> bool): (v: Validation)
    ensures IsBlank(url) ==> v == Validation(true, "")
    ensures !IsBlank(url) ==> (v.isValid <==> parses(url) || (StartsWith(url, "@") && |url| > 1))
    ensures v.formattedUrl == (if v.isValid then FormatUrl(url, platform) else url)
  {
    if IsBlank(url) then Validation(true, "")
    else
      var valid := parses(url) || (StartsWith(url, "@") && |url| > 1);
      Validation(valid, if valid then FormatUrl(url, platform) else url)
  }

  const Platforms: seq<string> := ["telegram", "facebook", "x", "instagram", "youtube"]

  function LinkOf(links: SocialLinks, platform: string): string {
    if platform == "telegram" then links.telegram
    else if platform == "facebook" then links.facebook
    else if platform == "x" then links.x
    else if platform == "instagram" then links.instagram
    else links.youtube
  }

  /** JavaScript truthiness of the object `validateUrl` returns: an object is truthy whatever
      its `isValid` field holds. */
  predicate ObjectTruthy(v: Validation) {
    true
  }

  /** The check of `handleSubmit` as written: it stops at a platform whose `validateUrl`
      result is falsy, that is, where `!validateUrl(url, key)` holds. */
  predicate SubmitRejects(links: SocialLinks, parses: string -> bool) {
    exists i :: 0 <= i < |Platforms| && !ObjectTruthy(ValidateUrl(LinkOf(links, Platforms[i]), Platforms[i], parses))
  }

  /** The check as evidently intended: it stops at a platform whose link is not valid. */
  predicate IntendedRejects(links: SocialLinks, parses: string -> bool) {
    exists i :: 0 <= i < |Platforms| && !ValidateUrl(LinkOf(links, Platforms[i]), Platforms[i], parses).isValid
  }

  /** A link `validateUrl` calls invalid: not blank, not accepted by the URL parser and not a
      handle of the form `@name`. */
  predicate InvalidLink(url: string, parses: string -> bool) {
    !IsBlank(url) && !parses(url) && !(StartsWith(url, "@") && |url| > 1)
  }

  /** The check as written lets every record through, for all links and every URL parser. */
  lemma SubmitNeverRejects(links: SocialLinks, parses: string -> bool)
    ensures !SubmitRejects(links, parses)
  {
  }

  /** The intended check stops exactly when some platform's link is invalid, in both directions. */
  lemma IntendedRejectsIff(links: SocialLinks, parses: string -> bool)
    ensures IntendedRejects(links, parses) <==>
            exists i :: 0 <= i < |Platforms| && InvalidLink(LinkOf(links, Platforms[i]), parses)
  {
    if IntendedRejects(links, parses) {
      var i :| 0 <= i < |Platforms| && !ValidateUrl(LinkOf(links, Platforms[i]), Platforms[i], parses).isValid;
      assert InvalidLink(LinkOf(links, Platforms[i]), parses);
    }
    if exists i :: 0 <= i < |Platforms| && InvalidLink(LinkOf(links, Platforms[i]), parses) {
      var i :| 0 <= i < |Platforms| && InvalidLink(LinkOf(links, Platforms[i]), parses);
      assert !ValidateUrl(LinkOf(links, Platforms[i]), Platforms[i], parses).isValid;
    }
  }

  /** Whenever some platform's link is invalid, the intended check stops the submit and the
      check as written does not. */
  lemma InvalidLinkGetsThrough(links: SocialLinks, parses: string -> bool, i: int)
    requires 0 <= i < |Platforms| && !ValidateUrl(LinkOf(links, Platforms[i]), Platforms[i], parses).isValid
    ensures IntendedRejects(links, parses) && !SubmitRejects(links, parses)
  {
    SubmitNeverRejects(links, parses);
  }

  /** One such input: a lone "@" as the Telegram link, with a parser that rejects it. */
  lemma SubmitAcceptsInvalidLink()
    ensures var links := SocialLinks("@", "", "", "", "");
            var reject := (u: string) => false;
            InvalidLink(LinkOf(links, "telegram"), reject)
            && IntendedRejects(links, reject) && !SubmitRejects(links, reject)
  {
    var links := SocialLinks("@", "", "", "", "");
    var at := "@";
    assert at[0] == '@' && !IsWhitespace(at[0]);
    assert !IsBlank(at);
    InvalidLinkGetsThrough(links, (u: string) => false, 0);
  }

  /** The record submitted: each link formatted with its own platform's key. */
  function FormattedLinks(f: SocialLinks): (r: SocialLinks)
    ensures r.telegram == FormatUrl(f.telegram, "telegram") && r.facebook == FormatUrl(f.facebook, "facebook")
    ensures r.x == FormatUrl(f.x, "x") && r.instagram == FormatUrl(f.instagram, "instagram")
    ensures r.youtube == FormatUrl(f.youtube, "youtube")
  {
    SocialLinks(FormatUrl(f.telegram, "telegram"), FormatUrl(f.facebook, "facebook"),
                FormatUrl(f.x, "x"), FormatUrl(f.instagram, "instagram"), FormatUrl(f.youtube, "youtube"))
  }

  /** Submitting twice formats nothing further. */
  lemma FormattedLinksIdempotent(f: SocialLinks)
    ensures FormattedLinks(FormattedLinks(f)) == FormattedLinks(f)
  {
    FormatUrlIdempotent(f.telegram, "telegram");
    FormatUrlIdempotent(f.facebook, "facebook");
    FormatUrlIdempotent(f.x, "x");
    FormatUrlIdempotent(f.instagram, "instagram");
    FormatUrlIdempotent(f.youtube, "youtube");
  }

  function LinksBody(l: SocialLinks): Body {
    Json([Field("telegram", Str(l.telegram)), Field("facebook", Str(l.facebook)), Field("x", Str(l.x)),
          Field("instagram", Str(l.instagram)), Field("youtube", Str(l.youtube))])
  }

  const SocialPath := "/about/social-media/"

  function HasId(id: nat): SocialRecord -> bool {
    (r: SocialRecord) => r.id == id
  }

  class SocialMediaManagement {
    var socialData: seq<SocialRecord>
    var isLoading: bool
    var isDialogOpen: bool
    var editingItem: Option<SocialRecord>
    var formData: SocialLinks
    const client: Client

    constructor (client: Client)
      ensures this.client == client && socialData == [] && isLoading && !isDialogOpen
      ensures editingItem == None && formData == EmptyLinks()
    {
      this.client := client;
      socialData := [];
      isLoading := true;
      isDialogOpen := false;
      editingItem := None;
      formData := EmptyLinks();
    }

    method FetchSocialData(reply: Reply<seq<SocialRecord>>)
      modifies this, client
      ensures socialData == (if reply.Ok? then reply.body else old(socialData)) && !isLoading
      ensures isDialogOpen == old(isDialogOpen) && editingItem == old(editingItem) && formData == old(formData)
      ensures client.sent == old(client.sent) + [Request(GET, SocialPath, NoBody)]
    {
      isLoading := true;
      client.Send(Request(GET, SocialPath, NoBody));
      if reply.Ok? {
        socialData := reply.body;
      }
      isLoading := false;
    }

    /** The platform loop first: a platform whose `validateUrl` result is falsy stops the
        submit before any request. Then the formatted links are written: PUT to the record's
        path when editing, else POST. Only an ok response changes the list (replace the edited
        id, or append) and resets the dialog. */
    method HandleSubmit(parses: string -> bool, reply: Reply<SocialRecord>) returns (stoppedAt: Option<string>)
      modifies this, client
      ensures stoppedAt.Some? ==>
                stoppedAt.value in Platforms
                && client.sent == old(client.sent) && socialData == old(socialData)
                && isDialogOpen == old(isDialogOpen) && editingItem == old(editingItem) && formData == old(formData)
      ensures stoppedAt.None? ==>
                var body := LinksBody(FormattedLinks(old(formData)));
                client.sent == old(client.sent) + [if old(editingItem).Some?
                                                   then Request(PUT, ItemPath(SocialPath, old(editingItem).value.id), body)
                                                   else Request(POST, SocialPath, body)]
      ensures stoppedAt.None? && reply.Ok? && old(editingItem).Some? ==>
                socialData == ReplaceWhere(old(socialData), HasId(old(editingItem).value.id), reply.body)
      ensures stoppedAt.None? && reply.Ok? && old(editingItem).None? ==> socialData == old(socialData) + [reply.body]
      ensures stoppedAt.None? && reply.Ok? ==> !isDialogOpen && editingItem == None && formData == EmptyLinks()
      ensures !reply.Ok? ==>
                socialData == old(socialData) && isDialogOpen == old(isDialogOpen)
                && editingItem == old(editingItem) && formData == old(formData)
      ensures stoppedAt.Some? <==> SubmitRejects(old(formData), parses)
      ensures stoppedAt.Some? ==>
                !ObjectTruthy(ValidateUrl(LinkOf(old(formData), stoppedAt.value), stoppedAt.value, parses))
    {
      var i := 0;
      while i < |Platforms|
        invariant 0 <= i <= |Platforms|
        invariant forall j :: 0 <= j < i ==>
                    ObjectTruthy(ValidateUrl(LinkOf(formData, Platforms[j]), Platforms[j], parses))
      {
        var platform := Platforms[i];
        if !ObjectTruthy(ValidateUrl(LinkOf(formData, platform), platform, parses)) {
          return Some(platform);
        }
        i := i + 1;
      }
      stoppedAt := None;
      SubmitWrite(reply);
    }

    /** The write after the check: PUT or POST of the formatted links, and on an ok response
        the list update and the dialog reset. */
    method SubmitWrite(reply: Reply<SocialRecord>)
      modifies this, client
      ensures var body := LinksBody(FormattedLinks(old(formData)));
              client.sent == old(client.sent) + [if old(editingItem).Some?
                                                 then Request(PUT, ItemPath(SocialPath, old(editingItem).value.id), body)
                                                 else Request(POST, SocialPath, body)]
      ensures reply.Ok? && old(editingItem).Some? ==>
                socialData == ReplaceWhere(old(socialData), HasId(old(editingItem).value.id), reply.body)
      ensures reply.Ok? && old(editingItem).None? ==> socialData == old(socialData) + [reply.body]
      ensures reply.Ok? ==> !isDialogOpen && editingItem == None && formData == EmptyLinks()
      ensures !reply.Ok? ==>
                socialData == old(socialData) && isDialogOpen == old(isDialogOpen)
                && editingItem == old(editingItem) && formData == old(formData)
    {
      var body := LinksBody(FormattedLinks(formData));
      if editingItem.Some? {
        client.Send(Request(PUT, ItemPath(SocialPath, editingItem.value.id), body));
        if !reply.Ok? {
          return;
        }
        socialData := ReplaceWhere(socialData, HasId(editingItem.value.id), reply.body);
      } else {
        client.Send(Request(POST, SocialPath, body));
        if !reply.Ok? {
          return;
        }
        socialData := socialData + [reply.body];
      }
      isDialogOpen := false;
      editingItem := None;
      formData := EmptyLinks();
    }

    method HandleEdit(item: SocialRecord)
      modifies this
      ensures editingItem == Some(item) && formData == item.links && isDialogOpen
      ensures socialData == old(socialData)
    {
      editingItem := Some(item);
      formData := item.links;
      isDialogOpen := true;
    }

    method OpenCreateDialog()
      modifies this
      ensures editingItem == None && formData == EmptyLinks() && isDialogOpen
      ensures socialData == old(socialData)
    {
      editingItem := None;
      formData := EmptyLinks();
      isDialogOpen := true;
    }
  }
}
