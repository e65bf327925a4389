/** The three career paths every page of the dashboard offers, in the order
    in which the pages declare them ("Stay in Job", "Join Startup",
    "Go Freelance"). The pages key their tables by these labels; the model
    keys them by this datatype instead. */
module Paths {

  datatype Path = StayInJob | JoinStartup | GoFreelance
}
