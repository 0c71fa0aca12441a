/**
  The records the game passes between the browser and the serverless functions.
  The repository's model types are not part of this model, so these records are
  placeholders: the logic reads only `Following.id`, `Following.selected`, and an
  entry's `following` and `tweets`.
 */
module Models {

  /** One post returned by the upstream social API. */
  datatype Tweet = Tweet(id: string, text: string)

  /** An account the signed-in user follows, as listed on the picking screen;
      `selected` is toggled by the user before submitting. */
  datatype Following = Following(id: string, name: string, selected: bool)

  /** One entry of the gateway's aggregate: the account id and its recent posts. */
  datatype FollowingTweets = FollowingTweets(following: string, tweets: seq<Tweet>)

  /** A quiz question produced from the aggregate; its contents are not interpreted here. */
  datatype Question = Question(text: string)
}
