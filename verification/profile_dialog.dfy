/**
 * The profile dialog's submit handler: it checks the form, calls the
 * session's `createProfile` and closes itself on success.
 */
module ProfileDialog {
  import opened Text

  /** The longest bio accepted, in UTF-16 code units. */
  const MaxBioLength := 100

  /** How the `createProfile` promise settled. */
  datatype CallResult = Returned(success: bool) | Threw

  /** What one submission does. */
  datatype SubmitOutcome =
    | NameRequired
    | BioTooLong
      /** `createProfile(name, bio)` was called; `close` says whether the dialog closes. */
    | Submitted(name: string, bio: string, close: bool)

  /**
   * `handleSubmit`: the name check runs first, then the bio check; only a
   * valid form reaches `createProfile`, with the fields exactly as typed,
   * and only a `true` result closes the dialog. `call` is how that call
   * settles; it is not consulted when a check fails.
   */
  function HandleSubmit(name: string, bio: string, call: CallResult): (r: SubmitOutcome)
    ensures r == NameRequired <==> Blank(name)
    ensures r == BioTooLong <==> !Blank(name) && Utf16Length(bio) > MaxBioLength
    ensures r.Submitted? <==> !Blank(name) && Utf16Length(bio) <= MaxBioLength
    ensures r.Submitted? ==> r.name == name && r.bio == bio
    ensures r.Submitted? ==> (r.close <==> call == Returned(true))
  {
    if Trim(name) == [] then NameRequired
    else if Utf16Length(bio) > MaxBioLength then BioTooLong
    else Submitted(name, bio, call.Returned? && call.success)
  }

  /** A bio of exactly 100 characters from the Basic Multilingual Plane is accepted. */
  lemma BioLimitInclusive(name: string, bio: string, call: CallResult)
    requires !Blank(name) && |bio| == MaxBioLength
    requires forall i :: 0 <= i < |bio| ==> bio[i] as int <= 0xFFFF
    ensures HandleSubmit(name, bio, call).Submitted?
  {
  }

  /**
   * The limit counts UTF-16 code units, not characters: 51 characters
   * outside the Basic Multilingual Plane already exceed it.
   */
  lemma BioLimitCountsCodeUnits(name: string, bio: string, call: CallResult)
    requires !Blank(name) && |bio| == 51
    requires forall i :: 0 <= i < |bio| ==> bio[i] as int > 0xFFFF
    ensures HandleSubmit(name, bio, call) == BioTooLong
  {
    AstralLength(bio);
  }

  /**
   * A bio of 99 characters from the Basic Multilingual Plane and one emoji
   * is 101 code units long, so it is rejected.
   */
  lemma MixedBioRejected(name: string, bmp: string, emoji: char, call: CallResult)
    requires !Blank(name) && |bmp| == MaxBioLength - 1
    requires forall i :: 0 <= i < |bmp| ==> bmp[i] as int <= 0xFFFF
    requires emoji as int > 0xFFFF
    ensures HandleSubmit(name, bmp + [emoji], call) == BioTooLong
  {
    Utf16Append(bmp, [emoji]);
    Utf16Char(emoji);
  }

  lemma {:induction false} AstralLength(s: string)
    requires forall i :: 0 <= i < |s| ==> s[i] as int > 0xFFFF
    ensures Utf16Length(s) == 2 * |s|
  {
    if s != [] {
      AstralLength(s[1..]);
    }
  }
}
