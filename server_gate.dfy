/** `getServerSideProps` of the admin pages: no access token, no page. */
module ServerGate {
  import opened Wrappers
  import opened Query

  /** What `getServerSideProps` returns. */
  datatype PageResult<P> =
    | Redirect(destination: string, permanent: bool)
    | Props(props: P)

  /**
   * The token check shared by the admin pages: a missing or empty cookie
   * sends the visitor to `/` with a temporary redirect; otherwise the page
   * gets its props.
   */
  function Gate<P>(token: Option<string>, props: P): (r: PageResult<P>)
    ensures r.Redirect? <==> !Filled(token)
    ensures r.Redirect? ==> r.destination == "/" && !r.permanent
    ensures r.Props? ==> r.props == props
  {
    if !Filled(token) then Redirect("/", false) else Props(props)
  }
}
