/** The verdict shown on the result screen, its text and colour decided by comparing the two final scores. */
module Verdict {

  /** The banner text: a win, a loss or a draw for the human player. */
  function ResultText(playerScore: int, aiScore: int): (text: string)
    ensures text == "YOU WIN!" <==> playerScore > aiScore
    ensures text == "AI WINS!" <==> playerScore < aiScore
    ensures text == "DRAW" <==> playerScore == aiScore
  {
    if playerScore > aiScore then "YOU WIN!"
    else if playerScore < aiScore then "AI WINS!"
    else "DRAW"
  }

  /** The colours the result banner can take. */
  datatype Colour = Blue | Red | Yellow

  /** The banner colour: blue for a win, red for a loss, yellow for a draw. */
  function BannerColour(playerScore: int, aiScore: int): (c: Colour)
    ensures c == Blue <==> playerScore > aiScore
    ensures c == Red <==> playerScore < aiScore
    ensures c == Yellow <==> playerScore == aiScore
  {
    if playerScore > aiScore then Blue
    else if playerScore < aiScore then Red
    else Yellow
  }
}
