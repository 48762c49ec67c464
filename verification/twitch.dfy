/** The provider's fixed identity, endpoints and user-visible messages
    (projects/lib/src/lib/twitch-login-provider.ts). */
module Twitch {

  /** Reported in every profile and used as the storage-key prefix. */
  const ProviderId: string := "TWITCH"

  const AuthUrl: string := "https://id.twitch.tv/oauth2/authorize"
  const ValidateUrl: string := "https://id.twitch.tv/oauth2/validate"
  const RevokeUrl: string := "https://id.twitch.tv/oauth2/revoke"
  const UserUrl: string := "https://api.twitch.tv/helix/users"

  const NotLoggedInMessage: string := "No user is currently logged in with " + ProviderId
  const InvalidTokenMessage: string := "Access token for " + ProviderId + " is not valid"
  const PopupBlockedMessage: string := "Unable to open Twitch authentication popup window."
  const WindowClosedMessage: string := "Twitch authentication window was closed."
  const AuthFailedMessage: string := "Twitch authentication failed."
  /** Prefix of the messages that embed a provider error or an exception text. */
  const AuthFailedPrefix: string := "Twitch authentication failed: "

  /** Text of the browser's cross-origin access exception, which polling ignores. */
  const CrossOriginMarker: string := "Blocked a frame with origin"
}
