/** The Convex database as a mutable object: each mutation under convex/ updates its tables in place. */
module Store {
  import opened Tables
  import opened Schema

  class Db {
    var users: seq<Doc<User>>
    var videos: seq<Doc<Video>>
    var imageGenerations: seq<Doc<ImageGeneration>>
    var schedulers: seq<Doc<Schedule>>
    var images: seq<Doc<Image>>
    var nextId: nat

    /** The current contents of every table. */
    function Snapshot(): State
      reads this
    {
      State(users, videos, imageGenerations, schedulers, images, nextId)
    }

    ghost predicate Valid()
      reads this
    {
      WellFormed(Snapshot())
    }

    constructor ()
      ensures Valid()
      ensures Snapshot() == State([], [], [], [], [], 0)
    {
      users, videos, imageGenerations, schedulers, images, nextId := [], [], [], [], [], 0;
    }
  }
}
