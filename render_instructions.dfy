/** RenderInstructions: the ordered, growable list of rendering rules. */
module RenderConfig {
  import opened Instructions

  class RenderInstructions {
    var instructions: seq<Instruction>

    /** A new rule list is empty. */
    constructor()
      ensures instructions == []
    {
      instructions := [];
    }

    /**
     * getInstructions hands out the live list: reading it after later `Add`
     * calls sees them.
     */
    function GetInstructions(): seq<Instruction>
      reads this
    {
      instructions
    }

    /** add appends at the end and keeps the earlier rules in place. */
    method Add(instruction: Instruction)
      modifies this
      ensures GetInstructions() == old(GetInstructions()) + [instruction]
      ensures |GetInstructions()| == |old(GetInstructions())| + 1
      ensures GetInstructions()[..|old(GetInstructions())|] == old(GetInstructions())
    {
      instructions := instructions + [instruction];
    }

    /** setInstructions replaces the whole list. */
    method SetInstructions(instructions: seq<Instruction>)
      modifies this
      ensures GetInstructions() == instructions
    {
      this.instructions := instructions;
    }
  }
}
