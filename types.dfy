/** The colour of a ball, the `BallColor` type shared by every component ('red' | 'blue'). */
module Types {

  datatype BallColor = Red | Blue
}
