/**
 * The two computed strings of the outgoing e-mails (lib/email/send.ts): the
 * PDF attachment's file name and the subject of the internal notification.
 * The same file-name expression builds the download name on the completion
 * page (app/quote/complete/QuoteCompleteContent.tsx).
 */
module EmailSend {

  predicate IsAsciiAlphanumeric(c: char) {
    'a' <= c <= 'z' || 'A' <= c <= 'Z' || '0' <= c <= '9'
  }

  /** A character that may appear in a sanitised name. */
  predicate IsFileNameChar(c: char) {
    IsAsciiAlphanumeric(c) || c == '_'
  }

  /** Every character outside [A-Za-z0-9] replaced by an underscore. */
  function Sanitize(s: string): (t: string)
    ensures |t| == |s|
    ensures forall i :: 0 <= i < |s| ==> t[i] == (if IsAsciiAlphanumeric(s[i]) then s[i] else '_')
  {
    if s == [] then [] else [if IsAsciiAlphanumeric(s[0]) then s[0] else '_'] + Sanitize(s[1..])
  }

  /** The output holds only letters, digits and underscores, and sanitising it again changes nothing. */
  lemma SanitizeIsIdempotent(s: string)
    ensures forall i :: 0 <= i < |Sanitize(s)| ==> IsFileNameChar(Sanitize(s)[i])
    ensures Sanitize(Sanitize(s)) == Sanitize(s)
  {
    var t := Sanitize(s);
    assert forall i :: 0 <= i < |t| ==> Sanitize(t)[i] == t[i];
  }

  /** A name made only of letters, digits and underscores is its own sanitised form. */
  lemma SanitizeFixesFileNames(s: string)
    requires forall i :: 0 <= i < |s| ==> IsFileNameChar(s[i])
    ensures Sanitize(s) == s
  {
    assert forall i :: 0 <= i < |s| ==> Sanitize(s)[i] == s[i];
  }

  /** Distinct company names may share a file name: the sanitiser is not injective. */
  lemma SanitizeMerges()
    ensures Sanitize("A&B") == Sanitize("A B") == "A_B"
  {
    assert Sanitize("A&B")[1] == '_' && Sanitize("A B")[1] == '_';
  }

  const AttachmentSuffix: string := "_Quote_Assessment.pdf"

  function AttachmentFilename(companyName: string): (name: string)
    ensures |name| == |companyName| + |AttachmentSuffix|
    ensures name[..|companyName|] == Sanitize(companyName)
    ensures name[|companyName|..] == AttachmentSuffix
  {
    Sanitize(companyName) + AttachmentSuffix
  }

  /** The file name ends in ".pdf" and its part before the suffix holds only letters, digits and underscores. */
  lemma AttachmentFilenameShape(companyName: string)
    ensures var name := AttachmentFilename(companyName);
      && name[|name| - 4..] == ".pdf"
      && forall i :: 0 <= i < |companyName| ==> IsFileNameChar(name[i])
  {
    var name := AttachmentFilename(companyName);
    SanitizeIsIdempotent(companyName);
    assert name[|name| - 4..] == AttachmentSuffix[|AttachmentSuffix| - 4..];
  }

  const SubjectPrefix: string := "New Quote Assessment: "
  const QualifiedTag: string := "Qualified"
  const ReviewTag: string := "Review Needed"

  function NotificationSubject(companyName: string, isQualified: bool): (subject: string)
    ensures |subject| > |SubjectPrefix| + |companyName|
    ensures subject[..|SubjectPrefix|] == SubjectPrefix
    ensures subject[|SubjectPrefix|..|SubjectPrefix| + |companyName|] == companyName
  {
    SubjectPrefix + companyName + " - " + (if isQualified then QualifiedTag else ReviewTag)
  }

  predicate EndsWith(s: string, suffix: string) {
    |suffix| <= |s| && s[|s| - |suffix|..] == suffix
  }

  /** The subject ends in "Qualified" exactly for a qualified lead, and in "Review Needed" exactly otherwise. */
  lemma SubjectNamesStatus(companyName: string, isQualified: bool)
    ensures EndsWith(NotificationSubject(companyName, isQualified), QualifiedTag) <==> isQualified
    ensures EndsWith(NotificationSubject(companyName, isQualified), ReviewTag) <==> !isQualified
  {
    var subject := NotificationSubject(companyName, isQualified);
    if isQualified {
      assert subject[|subject| - |QualifiedTag|..] == QualifiedTag;
      assert subject[|subject| - |ReviewTag| + 1] == ' ';
      assert ReviewTag[1] == 'e';
    } else {
      assert subject[|subject| - |ReviewTag|..] == ReviewTag;
      assert subject[|subject| - |QualifiedTag|] == 'e';
      assert QualifiedTag[0] == 'Q';
    }
  }
}
