/**
 * The publish form of the compose page (`handlePublish`): field checks in
 * order, the wallet check, and the parsing of the comma-separated tag field.
 */
module Compose {
  import opened Common
  import opened Text
  import opened Ledger

  /** The form's four text fields, as typed. */
  datatype Form = Form(title: string, description: string, content: string, tags: string)

  /** Why publishing stopped; `WalletNotConnected` also navigates to "/". */
  datatype PublishError = TitleRequired | DescriptionRequired | ContentRequired | WalletNotConnected

  /** The variables the post mutation is called with. */
  datatype PostMutation = PostMutation(post: PostDraft, address: string)

  /** `.map((tag) => tag.trim())`. */
  function TrimAll(parts: seq<string>): (r: seq<string>)
    ensures |r| == |parts|
    ensures forall i :: 0 <= i < |parts| ==> r[i] == Trim(parts[i])
  {
    seq(|parts|, i requires 0 <= i < |parts| => Trim(parts[i]))
  }

  predicate NonEmpty(t: string)
  {
    |t| > 0
  }

  /** `tags.split(",").map((tag) => tag.trim()).filter((tag) => tag.length > 0)`. */
  function ParseTags(text: string): (tags: seq<string>)
    ensures forall i :: 0 <= i < |tags| ==> tags[i] != [] && Trimmed(tags[i]) && ',' !in tags[i]
    ensures |tags| <= multiset(text)[','] + 1
    ensures Subsequence(tags, TrimAll(Split(text, ',')))
  {
    var pieces := TrimAll(Split(text, ','));
    TrimmedPieces(Split(text, ','));
    Filter(pieces, NonEmpty)
  }

  /** Every non-empty trimmed piece becomes a tag as often as it occurs; the empty ones are dropped. */
  lemma ParseTagsCounts(text: string)
    ensures forall x :: multiset(ParseTags(text))[x] == if x != [] then multiset(TrimAll(Split(text, ',')))[x] else 0
  {
    var pieces := TrimAll(Split(text, ','));
    assert ParseTags(text) == Filter(pieces, NonEmpty);
    assert forall x :: NonEmpty(x) <==> x != [];
    FilterCounts(pieces, NonEmpty);
  }

  /** Trimmed pieces of a comma split are trimmed and comma-free. */
  lemma TrimmedPieces(parts: seq<string>)
    requires forall i :: 0 <= i < |parts| ==> ',' !in parts[i]
    ensures forall x :: x in TrimAll(parts) ==> Trimmed(x) && ',' !in x
  {
    forall x | x in TrimAll(parts) ensures Trimmed(x) && ',' !in x {
      var k :| 0 <= k < |parts| && TrimAll(parts)[k] == x;
      assert x == Trim(parts[k]);
    }
  }

  /** The tag field yields no tags exactly when it holds only commas and white space. */
  lemma ParseTagsEmpty(text: string)
    ensures ParseTags(text) == [] <==> forall i :: 0 <= i < |text| ==> text[i] == ',' || IsSpace(text[i])
  {
    var parts := Split(text, ',');
    var pieces := TrimAll(parts);
    BlankPieces(text, ',');
    assert (forall k :: 0 <= k < |pieces| ==> !NonEmpty(pieces[k]))
       <==> (forall k :: 0 <= k < |parts| ==> Blank(parts[k]));
  }

  /**
   * `handlePublish` up to the mutation: title, description and content must
   * each be non-blank, checked in that order, and only then the wallet
   * address; the fields are submitted as typed, the tags parsed.
   */
  function PublishRequest(form: Form, address: Option<string>): (r: Result<PostMutation, PublishError>)
    ensures r == Failure(TitleRequired) <==> Blank(form.title)
    ensures r == Failure(DescriptionRequired) <==> !Blank(form.title) && Blank(form.description)
    ensures r == Failure(ContentRequired) <==>
      !Blank(form.title) && !Blank(form.description) && Blank(form.content)
    ensures r == Failure(WalletNotConnected) <==>
      !Blank(form.title) && !Blank(form.description) && !Blank(form.content) && !Present(address)
    ensures r.Success? ==>
      r.value == PostMutation(PostDraft(form.title, form.description, form.content, ParseTags(form.tags)), address.value)
  {
    if Trim(form.title) == [] then Failure(TitleRequired)
    else if Trim(form.description) == [] then Failure(DescriptionRequired)
    else if Trim(form.content) == [] then Failure(ContentRequired)
    else if !Present(address) then Failure(WalletNotConnected)
    else Success(PostMutation(PostDraft(form.title, form.description, form.content, ParseTags(form.tags)), address.value))
  }

  /**
   * Across the form and the ledger: the `Post-Tag` values written for a
   * published post are exactly the parsed tags, because trimming a parsed
   * tag again changes nothing.
   */
  lemma PublishedTagsWrittenAsParsed(form: Form, address: Option<string>)
    requires PublishRequest(form, address).Success?
    ensures var m := PublishRequest(form, address).value;
      && |PostTags(m.address, m.post.tags)| == 4 + |m.post.tags|
      && forall i :: 0 <= i < |m.post.tags| ==> PostTags(m.address, m.post.tags)[4 + i] == Tag("Post-Tag", m.post.tags[i])
  {
    var m := PublishRequest(form, address).value;
    PostTagsShape(m.address, m.post.tags);
    forall i | 0 <= i < |m.post.tags| ensures Trim(m.post.tags[i]) == m.post.tags[i] {
      TrimOfTrimmed(m.post.tags[i]);
    }
  }
}
