/**
  The single-record query the live handler re-fetches with (`getPhotoById`).
  The store executes the query; here only its text is built. The id is
  spliced in verbatim, with no escaping.
 */
module PhotoQueries {

  /** Text before the id: the type, visibility and id filter. */
  const IdQueryPrefix: string :=
    "\n   *[_type == \"photo_upload\" && show != false && _id==\""

  /** Text after the id: the ordering and the projection of a record. */
  const IdQuerySuffix: string :=
    "\"] | order(_createdAt desc) {\n     photo{\n       caption,\n       attribution,\n"
    + "       asset->{\n         url,\n         metadata {\n           dimensions {\n"
    + "             width,\n             height\n           }\n         }\n       }\n"
    + "     },\n     _createdAt\n   }"

  /** The query for one record: the id can be read back from between the
      fixed prefix and suffix. */
  function GetPhotoById(id: string): (q: string)
    ensures |q| == |IdQueryPrefix| + |id| + |IdQuerySuffix|
    ensures q[..|IdQueryPrefix|] == IdQueryPrefix
    ensures q[|IdQueryPrefix|..|IdQueryPrefix| + |id|] == id
    ensures q[|IdQueryPrefix| + |id|..] == IdQuerySuffix
  {
    IdQueryPrefix + id + IdQuerySuffix
  }

  /** Distinct ids give distinct queries (a consequence of the contract above). */
  lemma GetPhotoByIdInjective(a: string, b: string)
    requires GetPhotoById(a) == GetPhotoById(b)
    ensures a == b
  {
  }
}
