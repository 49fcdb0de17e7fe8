/** One riddle of the catalog as the front end receives it. `title` may be
    missing; `question` is the riddle as posed (the "soup surface") and
    `answer` the hidden explanation (the "soup base"). */
module Puzzles {
  import opened Basics

  datatype Puzzle = Puzzle(title: Option<string>, question: string, answer: string)
}
