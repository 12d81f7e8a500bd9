/** The emergency phrases and the fixed advisory text, as app/constants/emergencies.py defines them. */
module Emergencies {

  /** Phrases that indicate a possible medical emergency, in their original order. */
  const EmergencyKeywords: seq<string> := [
    "dor no peito",
    "falta de ar",
    "desmaio",
    "sangramento intenso",
    "confusão mental",
    "convulsão",
    "inconsciência",
    "pressão muito alta",
    "pressão muito baixa",
    "fraqueza súbita",
    "dificuldade para falar",
    "dificuldade para andar",
    "perda de visão súbita"
  ]

  /** The advisory sent to the user when an emergency is detected. */
  const EmergencyMessage: string :=
    "Entendi. Seus sintomas podem indicar uma situação de emergência. "
    + "Por favor, procure o pronto-socorro mais próximo ou ligue para o 192 imediatamente."
}
