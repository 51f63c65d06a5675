/** HTTP status codes used by the endpoints and the inference client. */
module HttpStatus {
  /** Status codes of sections 15.3.1, 15.5.2, 15.5.5 and 15.6.1 of RFC 9110. */
  const HTTP_200_OK: nat := 200
  const HTTP_401_UNAUTHORIZED: nat := 401
  const HTTP_404_NOT_FOUND: nat := 404
  const HTTP_500_INTERNAL_SERVER_ERROR: nat := 500
}
