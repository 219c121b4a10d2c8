/** The Ionic colour names the viewers give their badges. */
module Badges {
  datatype Color = Success | Danger | Primary | Warning | Medium
}
