/** Optional values, for the profile fields that the onboarding flow may not have filled. */
module Wrappers {
  datatype Option<+T> = None | Some(value: T)
}
