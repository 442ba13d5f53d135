/** The link record and the data-transfer values exchanged with the store
    (internal/model/link.go). */
module Model {

  /** A stored link: the long URL, its shortcut, the owner and the soft-delete flag. */
  datatype Link = Link(FullURL: string, Shortcut: string, UserID: string, IsDeleted: bool)
  {
    /** The creation request a stored link came from: URL and shortcut only. */
    function ToCreateDto(): (dto: CreateLinkDto)
      ensures dto.NewLink(UserID) == this <==> !IsDeleted
    {
      CreateLinkDto(FullURL, Shortcut)
    }
  }

  /** A request to create a link; the owner is supplied separately. */
  datatype CreateLinkDto = CreateLinkDto(FullURL: string, Shortcut: string)
  {
    /** The link this request creates for `userID`: not deleted. */
    function NewLink(userID: string): (l: Link)
      ensures l.FullURL == FullURL && l.Shortcut == Shortcut
      ensures l.UserID == userID && !l.IsDeleted
    {
      Link(FullURL, Shortcut, userID, false)
    }
  }

  /** One element of the "links of a user" listing. */
  datatype GetUserLinksRequestItem = GetUserLinksRequestItem(FullURL: string, Shortcut: string)

  /** One element of a batch creation request. */
  datatype CreateLinkWithCorrelationIDRequestItem =
    CreateLinkWithCorrelationIDRequestItem(FullURL: string, CorrelationID: string)

  /** One element of a batch creation response. */
  datatype CreateLinkWithCorrelationIDResponseItem =
    CreateLinkWithCorrelationIDResponseItem(Shortcut: string, CorrelationID: string)

  /** Creating from a request and converting back gives the request again, whatever the owner. */
  lemma NewLinkThenToCreateDto(dto: CreateLinkDto, userID: string)
    ensures dto.NewLink(userID).ToCreateDto() == dto
  {
  }

  /** Converting a link to a request and creating it again for the same owner gives back
      exactly the live links; a deleted link comes back undeleted. */
  lemma ToCreateDtoThenNewLink(l: Link)
    ensures l.ToCreateDto().NewLink(l.UserID) == l <==> !l.IsDeleted
    ensures l.ToCreateDto().NewLink(l.UserID) == l.(IsDeleted := false)
  {
  }
}
