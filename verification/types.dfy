/** Shared value types of the image-sharing client: the optional wrapper that
    stands for JavaScript's null/undefined, object and remote URLs, and the
    image record every gallery entry is built from. */
module Types {

  /** `null` / `undefined` on the JavaScript side is `None`. */
  datatype Option<+T> = None | Some(value: T)

  /** A string in JavaScript's truthiness sense: present and not empty. */
  predicate Truthy(s: Option<string>) {
    s.Some? && s.value != ""
  }

  /** JavaScript's `s || fallback` for an optional string. */
  function OrElse(s: Option<string>, fallback: string): string {
    if Truthy(s) then s.value else fallback
  }

  /** An image locator. `ObjectUrl(t)` is a `blob:` URL minted by
      `URL.createObjectURL`, identified by the abstract token `t`; `Remote`
      is any other URL string. */
  datatype Url = ObjectUrl(token: nat) | Remote(href: string)

  /** One gallery entry. `aiHint` is the optional field of the record. */
  datatype ImageData = ImageData(
    id: string,
    url: Url,
    userId: string,
    userName: string,
    userPhotoUrl: string,
    createdAt: int,
    aiHint: Option<string>)
}
