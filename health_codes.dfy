/** The health codes the progress ledger stores. Their numeric values live in
    a file that is not part of this model; the values below are placeholders
    and no property depends on them beyond their being pairwise distinct. */
module HealthCodes {

  const NOT_STARTED: int := 1000
  const IN_PROGRESS: int := 1001
  const STAGING: int := 1002
  const DEPLOYING: int := 1003
  const VERIFYING: int := 1004
  const BUILD_STARTING: int := 1005
  const BUILD_CLONING: int := 1006
  const BUILDING: int := 1007
  const BUILD_UPLOADING: int := 1008
  const CONTAINER_STARTING: int := 1009
  const SUCCESS: int := 1010
  const FAILED: int := 1011
  const ACCEPTED: int := 1012

  /** The literal status written when the DNS record cannot be created. */
  const CLOUDFLARE_FAILURE_STATUS: int := 500
  /** The API status that makes subdomain assignment try again. */
  const NOT_FOUND_STATUS: int := 404
}
