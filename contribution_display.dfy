/**
 * How contributions are drawn: the icon for a stored file's MIME type and
 * the colour of a status name. The icon lookup exists in two variants, an
 * object map (src/pages/Student/topics/topicDetail.jsx,
 * src/pages/Guest/GuestDashboard.jsx) and a `switch`
 * (src/pages/UMM/faculties/contributions/Contributions.jsx).
 */
module ContributionDisplay {
  import opened Wrappers

  datatype Icon = PdfIcon | ImageIcon | WordIcon | DefaultIcon

  const Pdf := "application/pdf"
  const Jpeg := "image/jpeg"
  const Png := "image/png"
  const MsWord := "application/msword"
  const Docx := "application/vnd.openxmlformats-officedocument.wordprocessingml.document"
  const Docs := "application/docs"

  /** The object map's own entries; a type it does not list has no entry. */
  function IconEntry(fileType: string): Option<Icon>
  {
    if fileType == Pdf then Some(PdfIcon)
    else if fileType == Jpeg || fileType == Png then Some(ImageIcon)
    else if fileType == MsWord || fileType == Docx then Some(WordIcon)
    else None
  }

  /** `iconMap[fileType] || defaultIcon`: the entry when there is one, the default icon otherwise. */
  function MapIcon(fileType: string): (i: Icon)
    ensures i == DefaultIcon <==> IconEntry(fileType).None?
    ensures IconEntry(fileType).Some? ==> i == IconEntry(fileType).value
  {
    IconEntry(fileType).GetOr(DefaultIcon)
  }

  /** The `switch` variant. */
  function SwitchIcon(fileType: string): Icon
  {
    if fileType == Pdf then PdfIcon
    else if fileType == Jpeg || fileType == Png then ImageIcon
    else if fileType == Docs then WordIcon
    else DefaultIcon
  }

  /** The map variant: the five listed types get their own icons and nothing else does. */
  lemma MapIconCases(fileType: string)
    ensures MapIcon(fileType) == PdfIcon <==> fileType == Pdf
    ensures MapIcon(fileType) == ImageIcon <==> fileType == Jpeg || fileType == Png
    ensures MapIcon(fileType) == WordIcon <==> fileType == MsWord || fileType == Docx
  {
  }

  /**
   * The two variants agree except on Word documents: the `switch` shows the
   * Word icon only for "application/docs", which the map does not list, and
   * the default icon for the two real Word types.
   */
  lemma IconVariantsAgreeExceptWord(fileType: string)
    ensures MapIcon(fileType) != SwitchIcon(fileType) <==> fileType == MsWord || fileType == Docx || fileType == Docs
    ensures SwitchIcon(MsWord) == DefaultIcon && MapIcon(MsWord) == WordIcon
    ensures SwitchIcon(Docs) == WordIcon && MapIcon(Docs) == DefaultIcon
  {
  }

  /** The theme colours a status can be drawn in. */
  datatype StatusColour = PrimaryMain | SuccessMain | ErrorMain | TextSecondary

  /**
   * The colour for `statusID?.statusName`: Pending, Approved and Rejected
   * have their own; an absent status or any other name is secondary text.
   */
  function ColourOfStatus(status: Option<string>): StatusColour
  {
    match status
    case Some("Pending") => PrimaryMain
    case Some("Approved") => SuccessMain
    case Some("Rejected") => ErrorMain
    case _ => TextSecondary
  }

  /** Each of the three known statuses has a colour of its own; every other value shares the secondary one. */
  lemma StatusColourCases(status: Option<string>)
    ensures ColourOfStatus(status) == TextSecondary
            <==> status !in {Some("Pending"), Some("Approved"), Some("Rejected")}
    ensures ColourOfStatus(status) == SuccessMain <==> status == Some("Approved")
    ensures ColourOfStatus(status) == PrimaryMain <==> status == Some("Pending")
    ensures ColourOfStatus(status) == ErrorMain <==> status == Some("Rejected")
  {
  }
}
